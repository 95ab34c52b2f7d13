/** One strict-FIFO pass, stage by stage (src/vq/broker_placement.py:460-644): finish what a
    crash interrupted, settle, replay, then place. */
module BrokerRound {
  import opened Common
  import opened BrokerRecord
  import opened BrokerCharges
  import opened BrokerDecision
  import opened BrokerProtocol
  import opened BrokerPass
  import StringOrder

  /** Every record but this one is at most nudged. */
  ghost predicate OnlyMoved(w: World, w': World, j: string) {
    && (forall k :: k in w.records && k != j ==> k in w'.records && Nudged(w.records[k], w'.records[k]))
    && w'.samples == w.samples
  }

  lemma OnlyMovedTrans(a: World, b: World, c: World, j: string)
    requires OnlyMoved(a, b, j) && (OnlyMoved(b, c, j) || Undisturbed(b, c))
    ensures OnlyMoved(a, c, j)
  {
  }

  lemma OnlyMovedHere(w: World, j: string)
    ensures OnlyMoved(w, w, j)
  {
  }

  lemma WriteMoves(w: World, w': World, j: string, r: Record)
    requires OnlyMoved(w, w', j)
    ensures OnlyMoved(w, w'.(records := w'.records[j := r]), j)
  {
  }

  /** Others run; the pass's own record is at most nudged. */
  method Pause(b: Broker, j: string, ghost start: World)
    requires b.Valid() && j in b.world.records && OnlyMoved(start, b.world, j)
    modifies b
    ensures b.Valid() && OnlyMoved(start, b.world, j)
    ensures Quiet(old(b.trace), b.trace) && NoSend(old(b.trace), b.trace)
    ensures j in b.world.records && Nudged(old(b.world).records[j], b.world.records[j])
    ensures b.world.samples == old(b.world).samples && Grows(old(b.world).claims, b.world.claims)
  {
    hide Sane, Run, OnlyMoved;
    ghost var w := b.world;
    b.Others();
    OnlyMovedTrans(start, w, b.world, j);
  }

  ghost predicate HalfWay(s: State) {
    s == Reserved || s == Returned
  }

  // --------------------------------------------------------------------
  // Recovery

  // In two parts: the proofs look at the first word only.
  const RECOVERED := "unstarted" + " reservation released during recovery"

  lemma ReleaseWrites(r: Record, now: Time)
    requires Grounded(r) && r.state == Reserved
    ensures var next := Next(r, ReleaseReservation(RECOVERED), now);
            next.Some? && next.value.state == Returned && next.value.cancellation == r.cancellation
  {
    hide AttemptsGrounded, IntentOk, BrokerJobIdOk, BlockersOk;
    LastAttempt(r);
    assert RECOVERED[0] == "unstarted"[0];
    NotBlank(RECOVERED);
  }

  lemma ResumeWrites(r: Record, now: Time)
    requires r.state == Returned
    ensures var next := Next(r, ResumeHolding, now);
            next.Some? && next.value.state == (if r.cancellation.Some? then Cancelled else Held)
  {
  }

  /** Release an unstarted reservation and put the job back in the queue, or finish cancelling
      it. This fails only when a cancellation came in between. */
  method RecoverOne(b: Broker, record: Record) returns (ok: bool)
    requires b.Valid() && HalfWay(record.state)
    requires record.jobId in b.world.records && Nudged(record, b.world.records[record.jobId])
    modifies b
    ensures b.Valid() && Quiet(old(b.trace), b.trace) && OnlyMoved(old(b.world), b.world, record.jobId)
    ensures record.jobId in b.world.records
    ensures ok ==> b.world.records[record.jobId].state in {Held, Cancelled}
    ensures !ok ==> && record.cancellation.None? && b.world.records[record.jobId].cancellation.Some?
                    && HalfWay(b.world.records[record.jobId].state)
  {
    hide Sane, Run, Next, Grounded, OnlyMoved, Quiet;
    var j := record.jobId;
    var revision := record.revision;
    ghost var start, from := b.world, b.trace;
    OnlyMovedHere(start, j);
    if record.state == Reserved {
      var released := Release(b, record);
      if released.None? { return false; }
      revision := released.value.revision;
    }
    ghost var mid := b.trace;
    Pause(b, j, start);
    ghost var w, later := b.world, b.trace;
    ResumeWrites(w.records[j], w.clock);
    var resumed := b.Update(j, revision, ResumeHolding);
    ok := resumed.Some?;
    QuietChain(from, mid, later, b.trace, StepOf(j, revision, ResumeHolding));
    if ok { WriteMoves(start, w, j, resumed.value); }
  }

  lemma QuietChain(a: seq<Step>, b: seq<Step>, c: seq<Step>, d: seq<Step>, step: Step)
    requires (a == b || Quiet(a, b)) && Quiet(b, c) && (d == c || d == c + [step])
    requires !IsReserve(step) && SavesSorted(step)
    ensures Quiet(a, d)
  {
  }

  method Release(b: Broker, record: Record) returns (released: Option<Record>)
    requires b.Valid() && record.state == Reserved
    requires record.jobId in b.world.records && Nudged(record, b.world.records[record.jobId])
    modifies b
    ensures b.Valid() && Quiet(old(b.trace), b.trace) && OnlyMoved(old(b.world), b.world, record.jobId)
    ensures record.jobId in b.world.records
    ensures released.None? ==> && record.cancellation.None? && b.world.records[record.jobId].cancellation.Some?
                               && b.world.records[record.jobId].state == Reserved
    ensures released.Some? ==> && b.world.records[record.jobId] == released.value
                               && released.value.state == Returned
                               && released.value.cancellation == record.cancellation
  {
    hide Sane, Run, Next, Grounded, OnlyMoved;
    var j := record.jobId;
    ghost var start := b.world;
    OnlyMovedHere(start, j);
    Pause(b, j, start);
    ghost var w := b.world;
    Keyed(w, j);
    ReleaseWrites(w.records[j], w.clock);
    released := b.Update(j, record.revision, ReleaseReservation(RECOVERED));
    if released.Some? { WriteMoves(start, w, j, released.value); }
  }

  /** A concurrent writer's revision is read again once, and once is always enough. */
  method RecoverRetrying(b: Broker, record: Record)
    requires b.Valid() && HalfWay(record.state)
    requires record.jobId in b.world.records && Nudged(record, b.world.records[record.jobId])
    modifies b
    ensures b.Valid() && Quiet(old(b.trace), b.trace) && OnlyMoved(old(b.world), b.world, record.jobId)
    ensures record.jobId in b.world.records && b.world.records[record.jobId].state in {Held, Cancelled}
  {
    hide Sane, Run, Grounded, OnlyMoved, Quiet;
    ghost var start, from := b.world, b.trace;
    var ok := RecoverOne(b, record);
    if !ok {
      var j := record.jobId;
      ghost var mid := b.trace;
      Pause(b, j, start);
      ghost var w, later := b.world, b.trace;
      Keyed(w, j);
      ok := RecoverOne(b, b.world.records[j]);
      OnlyMovedTrans(start, w, b.world, j);
      QuietTwice(from, mid, later);
      QuietTwice(from, later, b.trace);
    }
  }

  /** The store held this record at this moment. */
  ghost predicate StoredAt(r: Record, trace: seq<Step>, at: nat)
    requires at <= |trace|
  {
    var records := Run(START, trace[..at]).records;
    r.jobId in records && records[r.jobId] == r
  }

  /** The store held each of these records at some moment since. */
  ghost predicate AllStored(from: nat, trace: seq<Step>, records: seq<Record>) {
    forall i :: 0 <= i < |records| ==> WasStored(from, trace, records[i])
  }

  ghost predicate WasStored(from: nat, trace: seq<Step>, r: Record) {
    exists at :: from <= at <= |trace| && StoredAt(r, trace, at)
  }

  lemma StoredNow(from: nat, trace: seq<Step>, w: World, r: Record)
    requires from <= |trace| && w == Run(START, trace) && r.jobId in w.records && w.records[r.jobId] == r
    ensures WasStored(from, trace, r)
  {
    hide Run;
    assert trace[..|trace|] == trace;
    assert StoredAt(r, trace, |trace|);
  }

  lemma StoredStands(from: nat, from': nat, trace: seq<Step>, after: seq<Step>, records: seq<Record>)
    requires from' <= from && trace <= after && AllStored(from, trace, records)
    ensures AllStored(from', after, records)
  {
    hide Run;
    forall i | 0 <= i < |records| ensures WasStored(from', after, records[i]) {
      var at :| from <= at <= |trace| && StoredAt(records[i], trace, at);
      assert after[..at] == trace[..at];
      assert StoredAt(records[i], after, at);
    }
  }

  ghost predicate DistinctJobs(records: seq<Record>) {
    forall i, k :: 0 <= i < k < |records| ==> records[i].jobId != records[k].jobId
  }

  /** Each record read is in the store, at most nudged since. */
  ghost predicate ReadFrom(records: seq<Record>, from: nat, w: World) {
    forall i :: from <= i < |records| ==>
      records[i].jobId in w.records && Nudged(records[i], w.records[records[i].jobId])
  }

  /** Recovery leaves no record it read half-way. */
  method RecoverAll(b: Broker, records: seq<Record>)
    requires b.Valid() && DistinctJobs(records) && ReadFrom(records, 0, b.world)
    modifies b
    ensures b.Valid() && Quiet(old(b.trace), b.trace) && b.world.samples == old(b.world).samples
    ensures forall i :: 0 <= i < |records| ==>
      records[i].jobId in b.world.records && !HalfWay(b.world.records[records[i].jobId].state)
  {
    hide Sane, Run, Grounded;
    for n := 0 to |records|
      invariant b.Valid() && Quiet(old(b.trace), b.trace) && b.world.samples == old(b.world).samples
      invariant ReadFrom(records, n, b.world)
      invariant forall i :: 0 <= i < n ==>
        records[i].jobId in b.world.records && !HalfWay(b.world.records[records[i].jobId].state)
    {
      if records[n].state == Reserved || records[n].state == Returned {
        RecoverRetrying(b, records[n]);
      }
    }
  }

  // --------------------------------------------------------------------
  // Settlement

  /** The charge is still held for a job the target answered for: it lists the job, from figures
      newer than its acceptance, no older than allowed and not ahead of the clock. */
  ghost predicate Shown(r: Record, evidence: map<string, Sample>, now: Time, maxAge: Time) {
    && r.state == Placed && r.attempts != []
    && var a := r.attempts[|r.attempts| - 1];
       && a.chargeReleasedAt == None && a.targetHost in evidence && a.acceptedAt.Some?
       && (exists id :: a.targetJobId == Some(id) && id in evidence[a.targetHost].jobs)
       && var observed := evidence[a.targetHost].ObservedAt();
          a.acceptedAt.value < observed <= now <= observed + maxAge
  }

  predicate Settleable(r: Record, evidence: map<string, Sample>, now: Time, maxAge: Time)
    ensures Settleable(r, evidence, now, maxAge) <==> Shown(r, evidence, now, maxAge)
  {
    && r.state == Placed && r.attempts != []
    && var a := r.attempts[|r.attempts| - 1];
       && a.chargeReleasedAt.None? && a.targetHost in evidence
       && a.targetJobId.Some? && a.targetJobId.value in evidence[a.targetHost].jobs
       && 0.0 <= now - evidence[a.targetHost].ObservedAt() <= maxAge
       && a.acceptedAt.Some? && evidence[a.targetHost].ObservedAt() > a.acceptedAt.value
  }

  ghost predicate ChargeReleased(r: Record) {
    r.attempts != [] && r.attempts[|r.attempts| - 1].chargeReleasedAt.Some?
  }

  function AnswerFor(r: Record, evidence: map<string, Sample>): Option<Sample> {
    if r.attempts == [] || r.attempts[|r.attempts| - 1].targetHost !in evidence then None
    else Some(evidence[r.attempts[|r.attempts| - 1].targetHost])
  }

  lemma SettlesNow(w: World, r: Record, evidence: map<string, Sample>, now: Time, maxAge: Time)
    requires Shown(r, evidence, now, maxAge) && r.jobId in w.records && Nudged(r, w.records[r.jobId])
    requires forall h :: h in evidence ==> evidence[h] in w.samples
    ensures AnswerFor(r, evidence).Some? && SettleEvidence(w, r.jobId, AnswerFor(r, evidence).value)
    ensures var next := Next(w.records[r.jobId], SettleCharge, w.clock); next.Some? && ChargeReleased(next.value)
    ensures w.records[r.jobId].state == Placed && !ChargeReleased(w.records[r.jobId])
    ensures w.records[r.jobId].attempts == r.attempts
  {
    SettleWrites(w.records[r.jobId], w.clock);
  }

  /** Settle one record; a writer that came first is tolerated once, and once is enough. */
  method SettleOne(b: Broker, record: Record, evidence: map<string, Sample>, now: Time, maxAge: Time)
    returns (ok: bool)
    requires b.Valid() && Shown(record, evidence, now, maxAge)
    requires record.jobId in b.world.records && Nudged(record, b.world.records[record.jobId])
    requires forall h :: h in evidence ==> evidence[h] in b.world.samples
    modifies b
    ensures b.Valid() && Quiet(old(b.trace), b.trace) && OnlyMoved(old(b.world), b.world, record.jobId)
    ensures ok && record.jobId in b.world.records && ChargeReleased(b.world.records[record.jobId])
  {
    hide Sane, Run, Next, Grounded, SettleEvidence, OnlyMoved, Settleable, Shown, AnswerFor;
    var j := record.jobId;
    ghost var start := b.world;
    OnlyMovedHere(start, j);
    Pause(b, j, start);
    ghost var w := b.world;
    SettlesNow(w, record, evidence, now, maxAge);
    var s := AnswerFor(record, evidence).value;
    var settled := b.Settle(j, record.revision, s);
    if settled.None? {
      var current := b.world.records[j];
      if current.state != Placed || current.attempts == [] { return false; }
      var latest := current.attempts[|current.attempts| - 1];
      if latest.chargeReleasedAt.Some? || latest.targetJobId != record.attempts[|record.attempts| - 1].targetJobId {
        return false;
      }
      Pause(b, j, start);
      w := b.world;
      SettlesNow(w, record, evidence, now, maxAge);
      settled := b.Settle(j, current.revision, s);
    }
    ok := settled.Some?;
    if ok { WriteMoves(start, w, j, settled.value); }
  }

  /** How the stage leaves one record it read: settled, or to itself. */
  ghost predicate SettledOne(r: Record, settle: bool, settled: seq<string>, w: World) {
    && r.jobId in w.records
    && (if settle then r.jobId in settled && ChargeReleased(w.records[r.jobId])
        else r.jobId !in settled && Nudged(r, w.records[r.jobId]))
  }

  lemma SettledKept(r: Record, settle: bool, settled: seq<string>, w: World, w': World, j: string)
    requires SettledOne(r, settle, settled, w) && OnlyMoved(w, w', j) && r.jobId != j
    ensures SettledOne(r, settle, settled + [j], w')
  {
  }

  /** Exactly the settleable records are settled; the others are left to themselves. */
  method SettleAll(b: Broker, records: seq<Record>, evidence: map<string, Sample>, now: Time, maxAge: Time)
    returns (settled: seq<string>)
    requires b.Valid() && DistinctJobs(records) && ReadFrom(records, 0, b.world)
    requires forall h :: h in evidence ==> evidence[h] in b.world.samples
    modifies b
    ensures b.Valid() && Quiet(old(b.trace), b.trace)
    ensures forall i :: 0 <= i < |records| ==>
      SettledOne(records[i], Shown(records[i], evidence, now, maxAge), settled, b.world)
  {
    hide Sane, Run, Grounded, Settleable, Shown, SettledOne, Quiet;
    settled := [];
    ghost var from := b.trace;
    NothingYet(from);
    for n := 0 to |records|
      invariant b.Valid() && Quiet(from, b.trace) && b.world.samples == old(b.world).samples
      invariant ReadFrom(records, n, b.world) && (forall i :: n <= i < |records| ==> records[i].jobId !in settled)
      invariant forall i :: 0 <= i < n ==>
        SettledOne(records[i], Shown(records[i], evidence, now, maxAge), settled, b.world)
    {
      ghost var w, mid, before := b.world, b.trace, settled;
      if Settleable(records[n], evidence, now, maxAge) {
        var ok := SettleOne(b, records[n], evidence, now, maxAge);
        settled := settled + [records[n].jobId];
        QuietTwice(from, mid, b.trace);
        forall i | 0 <= i < n
          ensures SettledOne(records[i], Shown(records[i], evidence, now, maxAge), settled, b.world)
        {
          SettledKept(records[i], Shown(records[i], evidence, now, maxAge), before, w, b.world, records[n].jobId);
        }
        SettledNow(records[n], before, b.world);
      } else {
        LeftAlone(records[n], settled, b.world);
      }
    }
  }

  lemma NothingYet(trace: seq<Step>)
    ensures Quiet(trace, trace)
  {
  }

  lemma SettledNow(r: Record, settled: seq<string>, w: World)
    requires r.jobId in w.records && ChargeReleased(w.records[r.jobId])
    ensures SettledOne(r, true, settled + [r.jobId], w)
  {
  }

  lemma LeftAlone(r: Record, settled: seq<string>, w: World)
    requires r.jobId in w.records && Nudged(r, w.records[r.jobId]) && r.jobId !in settled
    ensures SettledOne(r, false, settled, w)
  {
  }

  // --------------------------------------------------------------------
  // Replays

  /** In transfer, and unchanged for as long as a replay must wait. */
  ghost predicate ReplayDue(r: Record, now: Time, retryAfter: Time) {
    r.state == Transferring && r.updatedAt + retryAfter <= now
  }

  /** The jobs to replay, in the order they were read. */
  ghost function DueIds(records: seq<Record>, now: Time, retryAfter: Time): seq<string> {
    if records == [] then []
    else
      var last := records[|records| - 1];
      DueIds(records[..|records| - 1], now, retryAfter)
      + if ReplayDue(last, now, retryAfter) then [last.jobId] else []
  }

  datatype Replay = Replay(jobId: string, outcome: Outcome)

  ghost function ReplayIds(replayed: seq<Replay>): seq<string> {
    seq(|replayed|, i requires 0 <= i < |replayed| => replayed[i].jobId)
  }

  /** One transfer was tried again as the record stood: its own request left, once, and nothing
      else; or nothing left, because it was cancelled, its host does not answer for the recorded
      root, or the record or its payload was not as it was read. */
  ghost predicate Tried(before: seq<Step>, after: seq<Step>, r: Record, out: Outcome, p: Policy) {
    && before <= after && !out.HeldBack?
    && (NoSend(before, after) <==>
          out.Raised? || out.CancelPending? || (out.Uncertain? && Seen(r, None, p) != Some(Root(r))))
    && (!NoSend(before, after) ==> RequestOf(r).Some? && SentOnce(before, after, RequestOf(r).value))
    && (out.Raised? ==> RefusedSince(|before|, after, r, p))
    && var now := Run(START, after).records;
       && r.jobId in now
       && (out.CancelPending? ==> r.cancellation.Some? || now[r.jobId].cancellation.Some?)
       && (out.PlacedAt? ==>
             && now[r.jobId].state == Placed && now[r.jobId].attempts != []
             && now[r.jobId].attempts[|now[r.jobId].attempts| - 1].targetJobId == Some(out.id))
  }

  /** Between these marks one record, as the store then held it, was tried. */
  ghost predicate TriedOne(trace: seq<Step>, lo: nat, hi: nat, x: Replay, p: Policy) {
    && lo <= hi <= |trace|
    && exists r: Record, at: nat :: lo <= at <= hi && r.jobId == x.jobId && StoredAt(r, trace, at)
         && NoSend(trace[..lo], trace[..at]) && Tried(trace[..at], trace[..hi], r, x.outcome, p)
  }

  /** The replays, one after the other. */
  ghost predicate Replays(trace: seq<Step>, marks: seq<nat>, replayed: seq<Replay>, p: Policy) {
    && |marks| == |replayed| + 1 && marks[|replayed|] == |trace|
    && (forall i :: 0 <= i < |replayed| ==> TriedOne(trace, marks[i], marks[i + 1], replayed[i], p))
  }

  /** Exactly the doubtful transfers that have waited long enough are tried again, in turn, each
      to its own target; a refusal does not keep the next one from its turn. */
  method ReplayAll(b: Broker, records: seq<Record>, now: Time, p: Policy)
    returns (replayed: seq<Replay>, ghost marks: seq<nat>)
    requires b.Valid() && forall i :: 0 <= i < |records| ==> records[i].jobId in b.world.records
    modifies b
    ensures b.Valid() && Quiet(old(b.trace), b.trace)
    ensures ReplayIds(replayed) == DueIds(records, now, p.retryAfter)
    ensures Replays(b.trace, marks, replayed, p) && marks[0] == |old(b.trace)|
  {
    hide Sane, Run, Grounded, SameCharges, NoSend, Undisturbed, Root, Seen, Quiet, TriedOne, Apply;
    replayed, marks := [], [|b.trace|];
    NothingYet(b.trace);
    for n := 0 to |records|
      invariant b.Valid() && Quiet(old(b.trace), b.trace)
      invariant ReplayIds(replayed) == DueIds(records[..n], now, p.retryAfter)
      invariant Replays(b.trace, marks, replayed, p) && marks[0] == |old(b.trace)|
    {
      assert records[..n + 1][..n] == records[..n];
      if records[n].state == Transferring && now - records[n].updatedAt >= p.retryAfter {
        ghost var before := b.trace;
        QuietPrefix(old(b.trace), before);
        KnownLater(old(b.trace), before, records[n].jobId);
        var out := ReplayOne(b, records[n].jobId, p);
        QuietPrefix(before, b.trace);
        QuietTwice(old(b.trace), before, b.trace);
        ReplaysOn(before, b.trace, marks, replayed, Replay(records[n].jobId, out), p);
        replayed, marks := replayed + [Replay(records[n].jobId, out)], marks + [|b.trace|];
      }
    }
    assert records[..|records|] == records;
  }

  /** Read the record, and send what it says if nothing speaks against it. */
  method ReplayOne(b: Broker, j: string, p: Policy) returns (out: Outcome)
    requires b.Valid() && j in b.world.records
    modifies b
    ensures b.Valid() && Quiet(old(b.trace), b.trace)
    ensures TriedOne(b.trace, |old(b.trace)|, |b.trace|, Replay(j, out), p)
  {
    hide Sane, Run, Grounded, SameCharges, Root, Seen, SentOnce, RefusedSince, RequestOf;
    ghost var start := b.trace;
    b.Others();
    Keyed(b.world, j);
    var record := b.world.records[j];
    ghost var at := b.trace;
    out := b.Transfer(record, None, p);
    TriedHere(start, at, b.trace, record, out, p);
  }

  lemma TriedHere(start: seq<Step>, at: seq<Step>, after: seq<Step>, r: Record, out: Outcome, p: Policy)
    requires start <= at && at <= after && NoSend(start, at) && Tried(at, after, r, out, p)
    requires r.jobId in Run(START, at).records && Run(START, at).records[r.jobId] == r
    ensures TriedOne(after, |start|, |after|, Replay(r.jobId, out), p)
  {
    hide Run, Tried;
    assert after[..|at|] == at && after[..|after|] == after && after[..|start|] == start;
    assert StoredAt(r, after, |at|);
  }

  lemma QuietPrefix(before: seq<Step>, after: seq<Step>)
    requires Quiet(before, after)
    ensures before <= after
  {
  }

  lemma ReplaysOn(before: seq<Step>, after: seq<Step>, marks: seq<nat>, replayed: seq<Replay>, x: Replay, p: Policy)
    requires before <= after && Replays(before, marks, replayed, p) && TriedOne(after, |before|, |after|, x, p)
    ensures Replays(after, marks + [|after|], replayed + [x], p)
  {
    hide TriedOne;
    forall i | 0 <= i < |replayed| ensures TriedOne(after, marks[i], marks[i + 1], replayed[i], p) {
      TriedStands(before, after, marks[i], marks[i + 1], replayed[i], p);
    }
  }

  lemma TriedStands(before: seq<Step>, after: seq<Step>, lo: nat, hi: nat, x: Replay, p: Policy)
    requires before <= after && TriedOne(before, lo, hi, x, p)
    ensures TriedOne(after, lo, hi, x, p)
  {
    hide Run, Tried, NoSend;
    var r: Record, at: nat :| lo <= at <= hi && r.jobId == x.jobId && StoredAt(r, before, at)
      && NoSend(before[..lo], before[..at]) && Tried(before[..at], before[..hi], r, x.outcome, p);
    assert after[..lo] == before[..lo] && after[..at] == before[..at] && after[..hi] == before[..hi];
    assert StoredAt(r, after, at);
  }

  // --------------------------------------------------------------------
  // The queue

  /** Accepted earlier, or at the same moment under an id that comes first: the two ids agree up to
      some character and the one ends or has the smaller character there. */
  ghost predicate Before(a: Record, b: Record) {
    || a.createdAt < b.createdAt
    || (a.createdAt == b.createdAt && exists k: nat :: StringOrder.LessAt(a.jobId, b.jobId, k))
  }

  predicate Earlier(a: Record, b: Record)
    ensures Earlier(a, b) <==> Before(a, b)
  {
    StringOrder.LessMeans(a.jobId, b.jobId);
    a.createdAt < b.createdAt || (a.createdAt == b.createdAt && StringOrder.Less(a.jobId, b.jobId))
  }

  ghost predicate InOrder(queue: seq<Record>) {
    forall i, k :: 0 <= i < k < |queue| ==> Before(queue[i], queue[k])
  }

  function Enqueue(queue: seq<Record>, r: Record): (q: seq<Record>)
    ensures multiset(q) == multiset(queue) + multiset{r}
  {
    if queue == [] then [r]
    else if Earlier(queue[0], r) then
      assert queue == [queue[0]] + queue[1..];
      [queue[0]] + Enqueue(queue[1..], r)
    else [r] + queue
  }

  lemma EarlierTotal(a: Record, b: Record)
    requires a.jobId != b.jobId
    ensures Before(a, b) || Before(b, a)
  {
    assert Earlier(a, b) || Earlier(b, a) by { StringOrder.LessTotal(a.jobId, b.jobId); }
  }

  lemma EarlierTransitive(a: Record, b: Record, c: Record)
    requires Before(a, b) && Before(b, c)
    ensures Before(a, c)
  {
    assert Earlier(a, b) && Earlier(b, c);
    if a.createdAt == b.createdAt == c.createdAt { StringOrder.LessTransitive(a.jobId, b.jobId, c.jobId); }
    assert Earlier(a, c);
  }

  lemma {:induction false} EnqueueOrders(queue: seq<Record>, r: Record)
    requires InOrder(queue) && forall x :: x in queue ==> x.jobId != r.jobId
    ensures InOrder(Enqueue(queue, r))
  {
    if queue != [] {
      EarlierTotal(queue[0], r);
      var q := Enqueue(queue, r);
      if Earlier(queue[0], r) {
        EnqueueOrders(queue[1..], r);
        forall k | 0 < k < |q| ensures Before(q[0], q[k]) {
          assert q[k] in multiset(queue[1..]) + multiset{r} by { assert q[k] == q[1..][k - 1]; }
        }
      } else {
        forall k | 0 < k < |q| ensures Before(r, q[k]) {
          if k > 1 { EarlierTransitive(r, queue[0], queue[k - 1]); }
        }
      }
    }
  }

  /** The held records, oldest first. */
  method QueueOf(records: seq<Record>) returns (queue: seq<Record>)
    requires DistinctJobs(records)
    ensures InOrder(queue) && DistinctJobs(queue)
    ensures forall r :: r in queue <==> r in records && r.state == Held
  {
    queue := [];
    for n := 0 to |records|
      invariant InOrder(queue)
      invariant forall r :: r in queue <==> r in records[..n] && r.state == Held
    {
      assert records[..n + 1] == records[..n] + [records[n]];
      if records[n].state == Held {
        forall x | x in queue ensures x.jobId != records[n].jobId {
          var i :| 0 <= i < n && records[i] == x;
        }
        EnqueueOrders(queue, records[n]);
        EnqueueMembers(queue, records[n]);
        queue := Enqueue(queue, records[n]);
      }
    }
    assert records[..|records|] == records;
    OrderDistinct(queue, records);
  }

  lemma EnqueueMembers(queue: seq<Record>, r: Record)
    ensures forall x :: x in Enqueue(queue, r) <==> x in queue || x == r
  {
    forall x ensures x in Enqueue(queue, r) <==> x in queue || x == r {
      assert x in Enqueue(queue, r) <==> x in multiset(Enqueue(queue, r));
      assert x in queue <==> x in multiset(queue);
    }
  }

  lemma OrderDistinct(queue: seq<Record>, records: seq<Record>)
    requires InOrder(queue) && DistinctJobs(records) && forall r :: r in queue ==> r in records
    ensures DistinctJobs(queue)
  {
    forall i, k | 0 <= i < k < |queue| ensures queue[i].jobId != queue[k].jobId {
      assert queue[i] in records && queue[k] in records;
      var m :| 0 <= m < |records| && records[m] == queue[i];
      var n :| 0 <= n < |records| && records[n] == queue[k];
      SameIdNotLess(queue[i].jobId);
    }
  }

  lemma SameIdNotLess(s: string)
    ensures !StringOrder.Less(s, s)
  {
    if StringOrder.Less(s, s) { StringOrder.LessAsymmetric(s, s); }
  }

  // --------------------------------------------------------------------
  // The pass

  /** Every record, in any order. */
  method Scan(records: Records) returns (found: seq<Record>)
    requires forall j :: j in records ==> records[j].jobId == j
    ensures DistinctJobs(found)
    ensures forall r :: r in found <==> r.jobId in records && records[r.jobId] == r
  {
    found := [];
    var rest := records.Keys;
    while rest != {}
      invariant rest <= records.Keys && DistinctJobs(found)
      invariant forall r :: r in found <==> r.jobId in records && r.jobId !in rest && records[r.jobId] == r
      decreases |rest|
    {
      var j :| j in rest;
      found, rest := found + [records[j]], rest - {j};
    }
  }

  ghost predicate NoneHalfWay(records: seq<Record>) {
    forall i :: 0 <= i < |records| ==> !HalfWay(records[i].state)
  }

  /** Read every record again, one by one. */
  method Reread(b: Broker, records: seq<Record>) returns (again: seq<Record>)
    requires b.Valid() && DistinctJobs(records)
    requires forall i :: 0 <= i < |records| ==>
      records[i].jobId in b.world.records && !HalfWay(b.world.records[records[i].jobId].state)
    modifies b
    ensures b.Valid() && Quiet(old(b.trace), b.trace) && b.world.samples == old(b.world).samples
    ensures AllStored(|old(b.trace)|, b.trace, again) && NoneHalfWay(again)
    ensures |again| == |records| && DistinctJobs(again) && ReadFrom(again, 0, b.world)
    ensures forall i :: 0 <= i < |records| ==> again[i].jobId == records[i].jobId
  {
    hide Sane, Run, Grounded, SameCharges, Grows, WasStored, NoSend, SavesSorted;
    again := [];
    for n := 0 to |records|
      invariant b.Valid() && Quiet(old(b.trace), b.trace) && b.world.samples == old(b.world).samples
      invariant |again| == n && ReadFrom(again, 0, b.world)
      invariant AllStored(|old(b.trace)|, b.trace, again) && NoneHalfWay(again)
      invariant forall i :: 0 <= i < n ==> again[i].jobId == records[i].jobId
      invariant forall i :: 0 <= i < |records| ==>
        records[i].jobId in b.world.records && !HalfWay(b.world.records[records[i].jobId].state)
    {
      ghost var before := b.trace;
      b.Others();
      Keyed(b.world, records[n].jobId);
      StoredStands(|old(b.trace)|, |old(b.trace)|, before, b.trace, again);
      StoredNow(|old(b.trace)|, b.trace, b.world, b.world.records[records[n].jobId]);
      again := again + [b.world.records[records[n].jobId]];
    }
  }

  function JobIds(queue: seq<Record>): (ids: seq<string>)
    ensures |ids| == |queue| && forall i :: 0 <= i < |queue| ==> ids[i] == queue[i].jobId
  {
    seq(|queue|, i requires 0 <= i < |queue| => queue[i].jobId)
  }

  datatype Report = Report(read: seq<Record>, settled: seq<string>, replayed: seq<Replay>, queue: seq<Record>,
                           head: Option<string>, stopped: bool)

  /** At some moment of the pass, on the clock of some earlier one, exactly the settleable records
      among these had been settled. */
  ghost predicate SettleStage(from: nat, trace: seq<Step>, records: seq<Record>, evidence: map<string, Sample>,
                              settled: seq<string>, maxAge: Time) {
    exists m, at :: from <= m <= at <= |trace|
      && SettledAt(records, evidence, Run(START, trace[..m]).clock, maxAge, settled, Run(START, trace[..at]))
  }

  ghost predicate SettledAt(records: seq<Record>, evidence: map<string, Sample>, now: Time, maxAge: Time,
                            settled: seq<string>, w: World) {
    forall i :: 0 <= i < |records| ==>
      SettledOne(records[i], Shown(records[i], evidence, now, maxAge), settled, w)
  }

  /** From some moment of the pass on, and on its clock, exactly the due transfers among these were
      tried again. */
  ghost predicate ReplayStage(from: nat, trace: seq<Step>, records: seq<Record>, replayed: seq<Replay>, p: Policy) {
    exists marks: seq<nat> :: Replays(trace, marks, replayed, p) && from <= marks[0] <= |trace|
      && ReplayIds(replayed) == DueIds(records, Run(START, trace[..marks[0]]).clock, p.retryAfter)
  }

  lemma SettledThen(from: nat, start: seq<Step>, done: seq<Step>, after: seq<Step>, records: seq<Record>,
                    evidence: map<string, Sample>, settled: seq<string>, maxAge: Time)
    requires from <= |start| && start <= done && done <= after
    requires SettledAt(records, evidence, Run(START, start).clock, maxAge, settled, Run(START, done))
    ensures SettleStage(from, after, records, evidence, settled, maxAge)
  {
    hide Run, SettledAt;
    assert after[..|start|] == start && after[..|done|] == done;
  }

  lemma ReplayedThen(from: nat, start: seq<Step>, after: seq<Step>, marks: seq<nat>, records: seq<Record>,
                     replayed: seq<Replay>, p: Policy)
    requires from <= |start| && start <= after && Replays(after, marks, replayed, p) && marks[0] == |start|
    requires ReplayIds(replayed) == DueIds(records, Run(START, start).clock, p.retryAfter)
    ensures ReplayStage(from, after, records, replayed, p)
  {
    hide Run, Replays, ReplayIds, DueIds;
    assert after[..|start|] == start;
  }

  /** Everything before the queue is walked: finish what a crash left, settle, replay, and read
      the held jobs in order. */
  method Prepare(b: Broker, evidence: map<string, Sample>, p: Policy)
    returns (again: seq<Record>, settled: seq<string>, replayed: seq<Replay>, queue: seq<Record>)
    requires b.Valid() && forall h :: h in evidence ==> evidence[h] in b.world.samples
    modifies b
    ensures b.Valid() && Quiet(old(b.trace), b.trace) && InOrder(queue) && DistinctJobs(queue)
    ensures AllStored(|old(b.trace)|, b.trace, again) && NoneHalfWay(again)
    ensures forall r :: r in queue <==> r in again && r.state == Held
    ensures forall j :: j in old(b.world).records ==> exists r :: r in again && r.jobId == j
    ensures SettleStage(|old(b.trace)|, b.trace, again, evidence, settled, p.maxAge)
    ensures ReplayStage(|old(b.trace)|, b.trace, again, replayed, p)
  {
    hide Sane, Run, Grounded, InOrder, Shown, DueIds, ReplayIds, SettledOne, AllStored, Replays, Nudged;
    hide NoneHalfWay, ReadFrom, Quiet, SettleStage, ReplayStage;
    ghost var start := b.trace;
    var records := ReadAndRecover(b);
    ghost var recovered := b.trace;
    again := Reread(b, records);
    SameJobs(records, again, old(b.world).records.Keys);
    ghost var read := b.trace;
    settled := SettleAll(b, again, evidence, b.world.clock, p.maxAge);
    ghost var done := b.trace;
    AllThere(again, evidence, Run(START, read).clock, p.maxAge, settled, b.world);
    ghost var marks;
    replayed, marks := ReplayAll(b, again, b.world.clock, p);
    Chain(start, recovered, read, done, b.trace);
    StoredStands(|recovered|, |start|, read, b.trace, again);
    SettledThen(|start|, read, done, b.trace, again, evidence, settled, p.maxAge);
    ReplayedThen(|start|, done, b.trace, marks, again, replayed, p);
    queue := QueueOf(again);
  }

  /** The records as they are found, each one taken on from where a crash left it. */
  method ReadAndRecover(b: Broker) returns (records: seq<Record>)
    requires b.Valid()
    modifies b
    ensures b.Valid() && Quiet(old(b.trace), b.trace) && b.world.samples == old(b.world).samples
    ensures DistinctJobs(records)
    ensures forall j :: j in old(b.world).records ==> exists r :: r in records && r.jobId == j
    ensures forall i :: 0 <= i < |records| ==>
      records[i].jobId in b.world.records && !HalfWay(b.world.records[records[i].jobId].state)
  {
    hide Sane, Run, Grounded;
    b.Others();
    AllKeyed(b.world);
    records := Scan(b.world.records);
    RecoverAll(b, records);
  }

  lemma Chain(a: seq<Step>, b: seq<Step>, c: seq<Step>, d: seq<Step>, e: seq<Step>)
    requires Quiet(a, b) && Quiet(b, c) && Quiet(c, d) && Quiet(d, e)
    ensures Quiet(a, e) && a <= b && b <= c && c <= d && d <= e && |a| <= |b| <= |c| <= |d|
  {
    hide SavesSorted;
    QuietTwice(a, b, c);
    QuietTwice(c, d, e);
    QuietTwice(a, c, e);
  }

  lemma AllThere(records: seq<Record>, evidence: map<string, Sample>, now: Time, maxAge: Time,
                 settled: seq<string>, w: World)
    requires SettledAt(records, evidence, now, maxAge, settled, w)
    ensures forall i :: 0 <= i < |records| ==> records[i].jobId in w.records
  {
    hide Shown;
    forall i | 0 <= i < |records| ensures records[i].jobId in w.records {
      assert SettledOne(records[i], Shown(records[i], evidence, now, maxAge), settled, w);
    }
  }

  /** One pass under the pass lock. Every record is read from the store once what a crash left
      half-way is finished; the settleable are settled and the due transfers tried again; nothing
      is reserved before the queue is walked; the queue is the records read as held, oldest first;
      it is walked in strict order; and every reservation keeps within its snapshot's room. The
      job left at the head is one no host could take, or one that was not there to be placed. */
  method RunOnce(b: Broker, snapshots: seq<Snapshot>, evidence: map<string, Sample>, unusable: bool, p: Policy)
    returns (report: Option<Report>, ghost mid: seq<Step>, ghost marks: seq<nat>)
    requires b.Valid() && Reranks(p) && NamedHosts(snapshots)
    requires forall h :: h in evidence ==> evidence[h] in b.world.samples
    modifies b
    ensures b.Valid()
    ensures report.None? <==> !UniqueHosts(snapshots) || unusable
    ensures report.None? ==> b.world == old(b.world)
    ensures report.Some? ==>
      && Quiet(old(b.trace), mid) && InOrder(report.value.queue) && DistinctJobs(report.value.queue)
      && AllStored(|old(b.trace)|, mid, report.value.read) && NoneHalfWay(report.value.read)
      && SettleStage(|old(b.trace)|, mid, report.value.read, evidence, report.value.settled, p.maxAge)
      && ReplayStage(|old(b.trace)|, mid, report.value.read, report.value.replayed, p)
      && (forall r :: r in report.value.queue <==> r in report.value.read && r.state == Held)
      && (forall j :: j in old(b.world).records ==> exists r :: r in report.value.read && r.jobId == j)
      && Fifo(JobIds(report.value.queue), mid, b.trace, marks, report.value.head)
      && RoomKept(|old(b.trace)|, b.trace, snapshots, b.world.records)
      && (if report.value.head.Some?
          then Stays(|mid|, b.trace, report.value.head.value, report.value.stopped, snapshots, p)
          else !report.value.stopped)
    ensures old(b.trace) <= b.trace && AllChosen(p, |old(b.trace)|, b.trace)
  {
    hide Sane, Run, Grounded, Reranks, Fifo, InOrder, DistinctJobs, RoomKept, AllChosen, Stays, UniqueHosts;
    hide AllStored, NoneHalfWay, SettleStage, ReplayStage;
    mid, marks := b.trace, [];
    ChosenStart(p, b.trace);
    if !UniqueHosts(snapshots) || unusable { return None, mid, marks; }
    var again, settled, replayed, queue := Prepare(b, evidence, p);
    mid := b.trace;
    var head, stopped;
    head, stopped, marks := b.PlaceQueue(JobIds(queue), snapshots, p);
    RoomFromStart(old(b.trace), mid, b.trace, JobIds(queue), marks, head, snapshots, b.world.records);
    FifoExtends(JobIds(queue), mid, b.trace, marks, head);
    ChosenFromStart(p, old(b.trace), mid, b.trace);
    report := Some(Report(again, settled, replayed, queue, head, stopped));
  }

  lemma SameJobs(records: seq<Record>, again: seq<Record>, ids: set<string>)
    requires |again| == |records| && forall i :: 0 <= i < |records| ==> again[i].jobId == records[i].jobId
    requires forall j :: j in ids ==> exists r :: r in records && r.jobId == j
    ensures forall j :: j in ids ==> exists r :: r in again && r.jobId == j
  {
    forall j | j in ids ensures exists r :: r in again && r.jobId == j {
      var r :| r in records && r.jobId == j;
      var i :| 0 <= i < |records| && records[i] == r;
      assert again[i] in again;
    }
  }

  lemma RoomFromStart(start: seq<Step>, mid: seq<Step>, after: seq<Step>, ids: seq<string>, marks: seq<nat>,
                      head: Option<string>, snapshots: seq<Snapshot>, records: Records)
    requires Quiet(start, mid) && Fifo(ids, mid, after, marks, head)
    requires RoomKept(|mid|, after, snapshots, records)
    ensures RoomKept(|start|, after, snapshots, records)
  {
    hide RoomAt;
  }

  lemma ChosenFromStart(p: Policy, start: seq<Step>, mid: seq<Step>, after: seq<Step>)
    requires Quiet(start, mid) && mid <= after && AllChosen(p, |mid|, after)
    ensures AllChosen(p, |start|, after)
  {
    hide Chosen;
  }

  lemma FifoExtends(ids: seq<string>, mid: seq<Step>, after: seq<Step>, marks: seq<nat>, head: Option<string>)
    requires Fifo(ids, mid, after, marks, head)
    ensures mid <= after
  {
  }

  lemma AllKeyed(w: World)
    requires Sane(w)
    ensures forall j :: j in w.records ==> w.records[j].jobId == j
  {
  }

  /** If a pass reserves for a queued job, every queued job accepted earlier had by then left
      the queue, and nothing behind the head is reserved for. */
  lemma StrictFifo(queue: seq<Record>, before: seq<Step>, after: seq<Step>, marks: seq<nat>,
                   head: Option<string>, t: nat)
    requires InOrder(queue) && DistinctJobs(queue) && Fifo(JobIds(queue), before, after, marks, head)
    requires |before| <= t < |after| && IsReserve(after[t])
    ensures exists n :: 0 <= n < |queue| && queue[n].jobId == after[t].jobId
    ensures forall n, m :: 0 <= m < n < |queue| && queue[n].jobId == after[t].jobId ==>
      Before(queue[m], queue[n]) && LeftBy(|before|, after, t, queue[m].jobId)
    ensures head.Some? ==> forall m, n :: 0 <= m < n < |queue| && queue[m].jobId == head.value ==>
      queue[n].jobId != after[t].jobId
  {
    hide Run, Left, Before;
    var ids := JobIds(queue);
    assert InStretch(ids, after, marks, t);
    var k: nat :| 0 <= k < |marks| - 1 && k < |ids| && marks[k] <= t < marks[k + 1] && after[t].jobId == ids[k];
    forall n, m | 0 <= m < n < |queue| && queue[n].jobId == after[t].jobId
      ensures Before(queue[m], queue[n]) && LeftBy(|before|, after, t, queue[m].jobId)
    {
      assert n == k;
      assert |before| == marks[0] <= marks[m + 1] <= marks[k];
      assert PassedOne(ids, after, marks, m);
    }
  }

  /** The job had left the queue at some moment since the walk began. */
  ghost predicate LeftBy(from: nat, after: seq<Step>, t: nat, j: string)
    requires t <= |after|
  {
    exists at :: from <= at <= t && Left(after, at, j)
  }
}
