/** The broker's passes (src/vq/broker_placement.py, src/vq/broker_service.py).

    A pass is ordinary imperative code over the store, the network and the targets. Each of its
    effects is one step of the protocol, so a pass is a run and everything proved of runs holds
    of it, cut off anywhere. Between any two effects other processes may accept and cancel jobs
    and targets may do as they like; the pass lock keeps everything else out. */
module BrokerPass {
  import opened Common
  import opened JsonModel
  import opened BrokerRecord
  import opened BrokerCharges
  import opened BrokerDecision
  import opened BrokerProtocol
  import StringOrder

  /** What a pass is configured with: how hosts are ranked anew, if they are, refused and probed;
      and when a job's stored payload is found whole. */
  datatype Policy = Policy(
    maxAge: Time, retryAfter: Time,
    rerank: Option<(Record, Decision, seq<Snapshot>, Time) -> Decision>,
    refuseTarget: string -> Option<string>,
    refuseJob: (Record, string) -> Option<string>,
    rootOf: string -> Option<string>,
    intact: (string, Time) -> bool)

  ghost predicate Listed(host: string, blockers: Blockers) {
    exists why :: (host, why) in blockers
  }

  /** A re-ranking orders hosts that were ranked and adds none, keeps the reasons there were, and
      gives every host it drops a reason of its own. */
  ghost predicate Narrows(d: Decision, d': Decision) {
    && (forall h :: h in d'.ranking ==> h in d.ranking)
    && (forall b :: b in d.blockers ==> b in d'.blockers)
    && (forall h :: h in d.ranking && h !in d'.ranking ==> Listed(h, d'.blockers))
  }

  ghost predicate Reranks(p: Policy) {
    p.rerank.Some? ==>
      forall r: Record, d: Decision, debited: seq<Snapshot>, now: Time :: Sorted(d) ==>
        var d' := p.rerank.value(r, d, debited, now); Sorted(d') && Narrows(d, d')
  }

  datatype Outcome =
    | HeldBack(blockers: Blockers)
    | PlacedAt(host: string, id: string)
    | Uncertain(host: string)
    | CancelPending(host: string)
    | Raised

  // --------------------------------------------------------------------
  // Steps that are not the pass's own

  predicate Foreign(step: Step) {
    || step.Tick? || step.Accept? || step.Deliver? || step.Fence? || step.Publish?
    || (step.Change? && step.op.RequestCancel?)
  }

  /** What others may have done to a record meanwhile: nothing, or cancelled it, once. */
  ghost predicate Nudged(r: Record, r': Record) {
    || r' == r
    || (&& r.cancellation.None? && r'.cancellation.Some? && r'.revision == r.revision + 1
        && r'.attempts == r.attempts && r'.jobId == r.jobId && r'.intent == r.intent
        && r'.payload == r.payload && r'.createdAt == r.createdAt
        && (r'.state == r.state || (r.state == Held && r'.state == Cancelled)))
  }

  ghost predicate Undisturbed(w: World, w': World) {
    && (forall j :: j in w.records ==> j in w'.records && Nudged(w.records[j], w'.records[j]))
    && w'.armed == w.armed && w'.sent == w.sent && w'.samples == w.samples && w.clock <= w'.clock
    && Grows(w.claims, w'.claims)
  }

  ghost predicate SameCharges(records: Records, records': Records) {
    && (forall host :: Outstanding(records', host) == Outstanding(records, host))
    && Everywhere(records') == Everywhere(records)
  }

  ghost predicate IsReserve(step: Step) {
    step.Change? && step.op.Reserve?
  }

  /** Blockers are saved in order of distinct hosts, if at all. */
  ghost predicate SavesSorted(step: Step) {
    step.Change? && step.op.RecordHeldBlockers? ==> StringOrder.AscendingNames(step.op.found)
  }

  /** The trace grew by steps none of which reserves, or saves blockers out of order. */
  ghost predicate Quiet(before: seq<Step>, after: seq<Step>) {
    before <= after && forall t :: |before| <= t < |after| ==> !IsReserve(after[t]) && SavesSorted(after[t])
  }

  lemma NotBlank(s: string)
    requires s != "" && s[0] !in {' ', '\t', '\n', '\r'}
    ensures !Blank(s)
  {
  }

  lemma AnswerHeard(w: World, j: string, a: Attempt, id: string)
    requires j in w.records && a in w.records[j].attempts && a.fingerprint.Some?
    requires ClaimOf(w.claims, a.targetRoot, a.key).Some?
    requires ClaimOf(w.claims, a.targetRoot, a.key).value.Accepted?
    requires ClaimOf(w.claims, a.targetRoot, a.key).value.id == id
    ensures Answered(w, j, a.fingerprint.value, id)
  {
    var i :| 0 <= i < |w.records[j].attempts| && w.records[j].attempts[i] == a;
  }

  ghost predicate NoSend(before: seq<Step>, after: seq<Step>) {
    forall t :: |before| <= t < |after| ==> !after[t].Send?
  }

  lemma NoSendTwice(before: seq<Step>, mid: seq<Step>, after: seq<Step>)
    requires Quiet(before, mid) && Quiet(mid, after) && NoSend(before, mid) && NoSend(mid, after)
    ensures NoSend(before, after)
  {
  }

  /** This request leaves at this step. */
  ghost predicate SendAt(trace: seq<Step>, t: nat, q: Request)
    requires t < |trace|
  {
    trace[t].Send? && Run(START, trace[..t]).armed == Some(q)
  }

  /** This request leaves once, and nothing else does. */
  ghost predicate SentOnce(before: seq<Step>, after: seq<Step>, q: Request) {
    exists t :: |before| <= t < |after| && SendAt(after, t, q)
                && forall u :: |before| <= u < |after| && u != t ==> !after[u].Send?
  }

  lemma SendShows(before: seq<Step>, armed: seq<Step>, mid: seq<Step>, after: seq<Step>, step: Step, q: Request)
    requires armed == before + [step] && !step.Send? && Quiet(armed, mid) && NoSend(armed, mid)
    requires Quiet(mid + [Send], after) && NoSend(mid + [Send], after) && Run(START, mid).armed == Some(q)
    ensures SentOnce(before, after, q) && !NoSend(before, after)
  {
    hide Run;
    assert after[|mid|] == Send && after[..|mid|] == mid;
    assert SendAt(after, |mid|, q);
  }

  /** A request that leaves in a part of the trace leaves once in the whole, if nothing else does. */
  lemma SentWithin(before: seq<Step>, from: seq<Step>, to: seq<Step>, after: seq<Step>, q: Request)
    requires before <= from && from <= to && to <= after
    requires NoSend(before, from) && SentOnce(from, to, q) && NoSend(to, after)
    ensures SentOnce(before, after, q)
  {
    hide Run;
    var t :| |from| <= t < |to| && SendAt(to, t, q)
             && forall u :: |from| <= u < |to| && u != t ==> !to[u].Send?;
    assert after[..t] == to[..t];
    assert SendAt(after, t, q);
  }

  lemma QuietAppend(before: seq<Step>, after: seq<Step>, step: Step)
    requires Quiet(before, after) && !IsReserve(step) && SavesSorted(step)
    ensures Quiet(before, after + [step])
  {
  }

  // --------------------------------------------------------------------
  // What a record holds

  /** The host and charge of the newest attempt while it is unreleased. */
  ghost function Hold(r: Record): Option<(string, Charge)> {
    if r.attempts == [] then None
    else
      var a := r.attempts[|r.attempts| - 1];
      if a.chargeReleasedAt.None? then Some((a.targetHost, a.charge)) else None
  }

  lemma SameHoldSameCharges(records: Records, j: string, r: Record)
    requires Hold(r) == if j in records then Hold(records[j]) else None
    ensures SameCharges(records, records[j := r])
  {
    hide Outstanding, Everywhere;
    forall host ensures Outstanding(records[j := r], host) == Outstanding(records, host) {
      OutstandingUpdate(records, j, r, host);
    }
    EverywhereUpdate(records, j, r);
  }

  /** Beginning, doubting, placing and cancelling leave the charge as it is. */
  lemma QuietOps(r: Record, op: Op, now: Time)
    requires Grounded(r) && Next(r, op, now).Some?
    requires !op.Reserve? && !op.ReleaseReservation? && !op.FenceTransfer? && !op.SettleCharge?
    ensures Hold(Next(r, op, now).value) == Hold(r)
  {
    hide Grounded, TransferFingerprint, ParseReason, TargetJobIdOk, BlockersOk;
  }

  lemma CancelNudges(r: Record, reason: string, now: Time)
    requires Next(r, RequestCancel(reason), now).Some?
    ensures Nudged(r, Next(r, RequestCancel(reason), now).value)
  {
    hide ParseReason;
  }

  lemma ForeignRecords(w: World, step: Step, j: string)
    requires Sane(w) && Foreign(step) && j in w.records
    ensures j in Apply(w, step).records && Nudged(w.records[j], Apply(w, step).records[j])
  {
    hide Grounded, Fingerprinted, Next, IdUsed, IntentOk, BrokerJobIdOk, NewRecord, DeliverTo, FenceAt, Nudged;
    NotNudged(w.records[j]);
    if step.Change? && step.jobId == j && Apply(w, step) != w { CancelNudges(w.records[j], step.op.reason, w.clock); }
  }

  lemma NotNudged(r: Record)
    ensures Nudged(r, r)
  {
  }

  lemma ForeignUndisturbs(w: World, step: Step)
    requires Sane(w) && Foreign(step)
    ensures Undisturbed(w, Apply(w, step))
  {
    hide Grounded, Fingerprinted, Next, IdUsed, IntentOk, BrokerJobIdOk, NewRecord, Nudged;
    hide ClaimOf, DeliverTo, FenceAt;
    var w' := Apply(w, step);
    forall root, key | ClaimOf(w.claims, root, key).Some?
      ensures ClaimOf(w'.claims, root, key) == ClaimOf(w.claims, root, key)
    {
      ClaimsStand(w, step, root, key);
    }
    forall j | j in w.records ensures j in w'.records && Nudged(w.records[j], w'.records[j]) {
      ForeignRecords(w, step, j);
    }
  }

  lemma ForeignCharges(w: World, step: Step)
    requires Sane(w) && Foreign(step)
    ensures SameCharges(w.records, Apply(w, step).records)
  {
    hide Grounded, Fingerprinted, SameCharges, Next, IdUsed, IntentOk, BrokerJobIdOk;
    hide DeliverTo, FenceAt;
    SameChargesRefl(w.records);
    var w' := Apply(w, step);
    if w'.records != w.records {
      assert step.Accept? || step.Change?;
      var j := step.jobId;
      if step.Change? { QuietOps(w.records[j], step.op, w.clock); }
      SameHoldSameCharges(w.records, j, w'.records[j]);
    }
  }

  lemma SameChargesRefl(records: Records)
    ensures SameCharges(records, records)
  {
  }

  // --------------------------------------------------------------------
  // One broker

  /** The write a transition makes on the current record, if it makes one. */
  function Attempted(w: World, j: string, expected: int, op: Op): Option<Record> {
    if j in w.records && w.records[j].revision == expected then Next(w.records[j], op, w.clock) else None
  }

  function StepOf(j: string, expected: int, op: Op): Step {
    if op.RecordPlaced? then Place(j, expected, op.fingerprint, op.targetJobId) else Change(j, expected, op)
  }

  /** The transition will be accepted on this record, at any time. */
  ghost predicate Ready(r: Record, op: Op) {
    && r.state == Transferring && r.attempts != []
    && (|| (op.RecordDiagnostic? && ParseReason(op.message).Some?)
        || (&& op.RecordPlaced? && TargetJobIdOk(op.targetJobId)
            && r.attempts[|r.attempts| - 1].fingerprint == Some(op.fingerprint)))
  }

  function NewestFingerprint(r: Record): Option<Preimage> {
    if r.attempts == [] then None else r.attempts[|r.attempts| - 1].fingerprint
  }

  lemma ReadyNudged(r: Record, r': Record, op: Op)
    requires Ready(r, op) && Nudged(r, r')
    ensures Ready(r', op)
  {
  }

  lemma ReadyWrites(r: Record, op: Op, now: Time)
    requires Ready(r, op)
    ensures Next(r, op, now).Some?
    ensures var r' := Next(r, op, now).value;
            && r'.attempts != [] && r'.state == (if op.RecordPlaced? then Placed else Transferring)
            && (op.RecordPlaced? ==> r'.attempts[|r'.attempts| - 1].targetJobId == Some(op.targetJobId))
  {
    hide ParseReason, TargetJobIdOk;
  }

  /** What a target answered it goes on answering. */
  lemma AnsweredStands(w: World, w': World, j: string, fingerprint: Preimage, id: string)
    requires Undisturbed(w, w') && Answered(w, j, fingerprint, id)
    ensures Answered(w', j, fingerprint, id)
  {
    hide ClaimOf;
    var r, r' := w.records[j], w'.records[j];
    assert r'.attempts == r.attempts;
    var i :| 0 <= i < |r.attempts| && r.attempts[i].fingerprint == Some(fingerprint)
             && AcceptedAt(w.claims, r.attempts[i].targetRoot, r.attempts[i].key)
             && ClaimOf(w.claims, r.attempts[i].targetRoot, r.attempts[i].key).value.id == id;
    assert r'.attempts[i] == r.attempts[i];
  }

  lemma SameOutstanding(a: Records, b: Records)
    requires SameCharges(a, b)
    ensures forall host :: Outstanding(b, host) == Outstanding(a, host)
  {
    hide Outstanding, Everywhere;
  }

  lemma SameChargesTrans(a: Records, b: Records, c: Records)
    requires SameCharges(a, b) && (b == c || SameCharges(b, c))
    ensures SameCharges(a, c)
  {
    hide Outstanding, Everywhere;
  }

  lemma QuietTwice(a: seq<Step>, b: seq<Step>, c: seq<Step>)
    requires Quiet(a, b) && Quiet(b, c)
    ensures Quiet(a, c)
  {
  }

  lemma QuietGap(a: seq<Step>, b: seq<Step>, c: seq<Step>, d: seq<Step>, e: seq<Step>, step: Step)
    requires b == a + [step] && Quiet(b, c) && d == c + [Send] && Quiet(d, e) && !IsReserve(step) && SavesSorted(step)
    ensures Quiet(a, e)
  {
  }

  lemma ArmSends(w: World, j: string)
    requires j in w.records && w.records[j].cancellation.None? && RequestOf(w.records[j]).Some?
    ensures Apply(w, Arm(j)) == w.(armed := RequestOf(w.records[j]))
  {
    hide RequestOf;
  }

  lemma SendGoes(w: World)
    requires w.armed.Some?
    ensures Apply(w, Send) == w.(sent := w.sent + {w.armed.value}, armed := None)
  {
  }

  lemma NudgedTwice(a: Record, b: Record, c: Record)
    requires Nudged(a, b) && Nudged(b, c)
    ensures Nudged(a, c)
  {
  }

  lemma ReadyOp(r: Record, op: Op)
    requires Ready(r, op)
    ensures r.state == Transferring && (op.RecordDiagnostic? || op.RecordPlaced?)
  {
  }

  /** A write of the pass's own that moves no charge. */
  lemma OwnWrite(w: World, j: string, op: Op)
    requires Sane(w) && j in w.records && Next(w.records[j], op, w.clock).Some?
    requires !op.Reserve? && !op.ReleaseReservation? && !op.FenceTransfer? && !op.SettleCharge?
    ensures SameCharges(w.records, w.records[j := Next(w.records[j], op, w.clock).value])
  {
    hide Grounded, Next, Fingerprinted, SameCharges;
    QuietOps(w.records[j], op, w.clock);
    SameHoldSameCharges(w.records, j, Next(w.records[j], op, w.clock).value);
  }

  // --------------------------------------------------------------------
  // Choosing a target

  /** The placement walk may use the host for this job. */
  ghost predicate Usable(p: Policy, record: Record, host: string) {
    && p.refuseTarget(host).None? && p.refuseJob(record, host).None?
    && p.rootOf(host).Some? && StartsWith(p.rootOf(host).value, "/")
  }

  /** Why the walk passes a host over: it is refused, for every job or for this one, or no absolute
      root is known for it. */
  ghost predicate SkippedFor(p: Policy, record: Record, host: string, why: string) {
    if p.refuseTarget(host).Some? then why == "target-refused: " + p.refuseTarget(host).value
    else if p.refuseJob(record, host).Some? then why == "job-refused: " + p.refuseJob(record, host).value
    else why == "state-root-unknown" && !Usable(p, record, host)
  }

  /** The first usable host of the ranking, and why each host before it was passed over. */
  method Walk(record: Record, ranking: seq<string>, p: Policy) returns (k: nat, skipped: Blockers)
    ensures k <= |ranking| && (k < |ranking| ==> Usable(p, record, ranking[k]))
    ensures forall m :: 0 <= m < k ==> !Usable(p, record, ranking[m])
    ensures |skipped| == k && forall m :: 0 <= m < k ==> skipped[m].0 == ranking[m] && skipped[m].1 != ""
    ensures forall m :: 0 <= m < k ==> SkippedFor(p, record, ranking[m], skipped[m].1)
  {
    skipped := [];
    k := 0;
    while k < |ranking|
      invariant k <= |ranking|
      invariant forall m :: 0 <= m < k ==> !Usable(p, record, ranking[m])
      invariant |skipped| == k && forall m :: 0 <= m < k ==> skipped[m].0 == ranking[m] && skipped[m].1 != ""
      invariant forall m :: 0 <= m < k ==> SkippedFor(p, record, ranking[m], skipped[m].1)
    {
      var host := ranking[k];
      if p.refuseTarget(host).Some? {
        skipped := skipped + [(host, "target-refused: " + p.refuseTarget(host).value)];
      } else if p.refuseJob(record, host).Some? {
        skipped := skipped + [(host, "job-refused: " + p.refuseJob(record, host).value)];
      } else if p.rootOf(host).None? || !StartsWith(p.rootOf(host).value, "/") {
        skipped := skipped + [(host, "state-root-unknown")];
      } else {
        return;
      }
      k := k + 1;
    }
  }

  /** The reservation is on a host the policy allows, at the root the policy knows it by. */
  ghost predicate Chosen(p: Policy, op: Op) {
    op.Reserve? && p.refuseTarget(op.snapshot.host).None? && p.rootOf(op.snapshot.host) == Some(op.root)
  }

  ghost predicate AllChosen(p: Policy, from: nat, trace: seq<Step>) {
    forall t :: from <= t < |trace| ==> SavesSorted(trace[t]) && (IsReserve(trace[t]) ==> Chosen(p, trace[t].op))
  }

  ghost function DebitedAll(snapshots: seq<Snapshot>, records: Records): (debited: seq<Snapshot>)
    ensures AllDebited(snapshots, debited, records)
  {
    seq(|snapshots|, i requires 0 <= i < |snapshots| => Debited(snapshots[i], records))
  }

  method IndexOf(snapshots: seq<Snapshot>, host: string) returns (i: nat)
    requires exists k :: 0 <= k < |snapshots| && snapshots[k].host == host
    ensures i < |snapshots| && snapshots[i].host == host
  {
    i := 0;
    while snapshots[i].host != host
      invariant i < |snapshots| && forall k :: 0 <= k < i ==> snapshots[k].host != host
      decreases |snapshots| - i
    {
      i := i + 1;
    }
  }

  /** What a reservation writes on a held record, which holds no charge. */
  lemma ReserveWrites(r: Record, op: Op, now: Time)
    requires Grounded(r) && op.Reserve? && Next(r, op, now).Some?
    ensures Hold(r).None? && r.state == Held
    ensures var r' := Next(r, op, now).value;
            && r'.state == Reserved && Hold(r') == Some((op.snapshot.host, Charge(r.intent.cpus, r.intent.memMb, 1)))
  {
    hide AttemptsGrounded, IntentOk, BrokerJobIdOk, BlockersOk, SnapshotDoc, DictMembers, ReservationId, StartsWith;
  }

  /** The trace grew by one reservation, for this job on this snapshot's host, and at that
      moment the snapshot had room for all that was outstanding. */
  ghost predicate Booked(before: seq<Step>, after: seq<Step>, at: nat, j: string, s: Snapshot) {
    && before <= after && |before| <= at < |after| && IsReserve(after[at])
    && (forall t :: |before| <= t < |after| && t != at ==> !IsReserve(after[t]) && SavesSorted(after[t]))
    && after[at].jobId == j && after[at].op.snapshot.host == s.host
    && Fits(s, Run(START, after[..at + 1]).records)
  }

  /** The root the newest attempt is pinned to, and the one its host was last seen to answer for. */
  ghost function Root(r: Record): string {
    if r.attempts == [] then "" else r.attempts[|r.attempts| - 1].targetRoot
  }

  ghost function Seen(r: Record, observed: Option<string>, p: Policy): Option<string> {
    if observed.Some? || r.attempts == [] then observed else p.rootOf(r.attempts[|r.attempts| - 1].targetHost)
  }

  /** The decision on these debited snapshots: the hosts as ranked, or as ranked anew. */
  ghost predicate Ranks(p: Policy, record: Record, debited: seq<Snapshot>, now: Time, d: Decision) {
    exists first: Decision :: Decided(debited, record.intent, now, p.maxAge, first)
      && d == if first.ranking != [] && p.rerank.Some? then p.rerank.value(record, first, debited, now) else first
  }

  /** The re-ranking dropped the host. */
  ghost predicate Dropped(p: Policy, record: Record, debited: seq<Snapshot>, now: Time, host: string) {
    p.rerank.Some? && exists d: Decision :: Ranks(p, record, debited, now, d) && host !in d.ranking
  }

  /** The host cannot take the job: what is outstanding leaves a reason against it, the walk may
      not use it, or the re-ranking dropped it. */
  ghost predicate RuledOut(records: Records, record: Record, snapshots: seq<Snapshot>, now: Time, p: Policy,
                           s: Snapshot)
  {
    || (exists why: Reason :: why.Holds(Debited(s, records), record.intent, now, p.maxAge))
    || !Usable(p, record, s.host)
    || Dropped(p, record, DebitedAll(snapshots, records), now, s.host)
  }

  /** No host offered can take this job on these records. */
  ghost predicate NoHost(records: Records, record: Record, snapshots: seq<Snapshot>, now: Time, p: Policy) {
    forall s :: s in snapshots ==> RuledOut(records, record, snapshots, now, p, s)
  }

  /** The job was held, and no host could take it. */
  ghost predicate NoHostFor(w: World, j: string, snapshots: seq<Snapshot>, p: Policy) {
    && j in w.records
    && exists r: Record :: r.jobId == j && r.state == Held && Nudged(r, w.records[j])
                           && NoHost(w.records, r, snapshots, w.clock, p)
  }

  /** At some moment since, no host could take the job. */
  ghost predicate NoHostSince(from: nat, trace: seq<Step>, j: string, snapshots: seq<Snapshot>, p: Policy) {
    exists t :: from <= t <= |trace| && NoHostFor(Run(START, trace[..t]), j, snapshots, p)
  }

  /** The job is not there to be placed: not held, cancelled, its payload not whole, or its
      attempts used up. */
  ghost predicate Hindered(w: World, j: string, p: Policy) {
    || j !in w.records || w.records[j].state != Held || w.records[j].cancellation.Some?
    || !p.intact(j, w.clock) || |w.records[j].attempts| >= ATTEMPTS_MAX
  }

  ghost predicate HinderedSince(from: nat, trace: seq<Step>, j: string, p: Policy) {
    exists t :: from <= t <= |trace| && Hindered(Run(START, trace[..t]), j, p)
  }

  lemma HinderedNow(from: nat, now: seq<Step>, after: seq<Step>, w: World, j: string, p: Policy)
    requires from <= |now| && now <= after && w == Run(START, now) && Hindered(w, j, p)
    ensures HinderedSince(from, after, j, p)
  {
    hide Run, Hindered;
    assert after[..|now|] == now;
  }

  /** Why a job stays at the head: no host could take it, or it was not there to be placed. */
  ghost predicate Stays(from: nat, trace: seq<Step>, j: string, stopped: bool, snapshots: seq<Snapshot>, p: Policy) {
    if stopped then HinderedSince(from, trace, j, p) else NoHostSince(from, trace, j, snapshots, p)
  }

  /** The record was written to since it was read, has no request, or its payload is not whole. */
  ghost predicate Refused(w: World, record: Record, p: Policy) {
    || record.jobId !in w.records || w.records[record.jobId] != record
    || RequestOf(record).None? || !p.intact(record.jobId, w.clock)
  }

  ghost predicate RefusedSince(from: nat, trace: seq<Step>, record: Record, p: Policy) {
    exists t :: from <= t <= |trace| && Refused(Run(START, trace[..t]), record, p)
  }

  lemma RefusedNow(from: nat, trace: seq<Step>, w: World, record: Record, p: Policy)
    requires from <= |trace| && w == Run(START, trace) && Refused(w, record, p)
    ensures RefusedSince(from, trace, record, p)
  {
    hide Run, Refused;
    assert trace[..|trace|] == trace;
  }

  lemma HinderedStands(from: nat, from': nat, trace: seq<Step>, after: seq<Step>, j: string, p: Policy)
    requires from' <= from && trace <= after && HinderedSince(from, trace, j, p)
    ensures HinderedSince(from', after, j, p)
  {
    hide Run, Hindered;
    var t :| from <= t <= |trace| && Hindered(Run(START, trace[..t]), j, p);
    assert after[..t] == trace[..t];
  }

  lemma NoHostNow(from: nat, now: seq<Step>, after: seq<Step>, w: World, r: Record, snapshots: seq<Snapshot>, p: Policy)
    requires from <= |now| && now <= after && w == Run(START, now)
    requires r.jobId in w.records && r.state == Held && Nudged(r, w.records[r.jobId])
    requires NoHost(w.records, r, snapshots, w.clock, p)
    ensures NoHostSince(from, after, r.jobId, snapshots, p)
  {
    hide Run, NoHost;
    assert after[..|now|] == now;
    assert NoHostFor(w, r.jobId, snapshots, p);
  }

  lemma BookedSince(before: seq<Step>, mid: seq<Step>, after: seq<Step>, at: nat, j: string, s: Snapshot)
    requires Quiet(before, mid) && Booked(mid, after, at, j, s)
    ensures Booked(before, after, at, j, s)
  {
    hide Fits, Run;
  }

  lemma NoHostStands(from: nat, from': nat, trace: seq<Step>, after: seq<Step>, j: string,
                     snapshots: seq<Snapshot>, p: Policy)
    requires from' <= from && trace <= after && NoHostSince(from, trace, j, snapshots, p)
    ensures NoHostSince(from', after, j, snapshots, p)
  {
    hide Run, NoHostFor;
    var t :| from <= t <= |trace| && NoHostFor(Run(START, trace[..t]), j, snapshots, p);
    assert after[..t] == trace[..t];
  }

  /** The reservation names one host and an absolute root, as the store demands. */
  ghost predicate Placeable(op: Op) {
    op.Reserve? && op.host == Some(op.snapshot.host) && op.snapshot.host != "" && StartsWith(op.root, "/")
  }

  /** Every host that may take the job is ranked, unless it was dropped; ranked hosts may take it;
      and each of the others has its reason. */
  ghost predicate Sound(p: Policy, record: Record, debited: seq<Snapshot>, now: Time, d: Decision) {
    && (forall h :: h in d.ranking ==> exists s :: Shows(debited, h, s) && Eligible(s, record.intent, now, p.maxAge))
    && (forall s :: s in debited && Eligible(s, record.intent, now, p.maxAge) && s.host !in d.ranking ==>
          Dropped(p, record, debited, now, s.host) && Listed(s.host, d.blockers))
    && (forall s :: s in debited && !Eligible(s, record.intent, now, p.maxAge) ==>
          (s.host, HostBlocker(s, record.intent, now, p.maxAge).value.Text()) in d.blockers)
  }

  lemma RanksSound(p: Policy, record: Record, debited: seq<Snapshot>, now: Time, d: Decision)
    requires Reranks(p) && UniqueHosts(debited) && NamedHosts(debited) && Ranks(p, record, debited, now, d)
    ensures Sorted(d) && Sound(p, record, debited, now, d)
  {
    hide HostBlocker, Sorted, Prefers, Reason.Text;
    var first: Decision :| Decided(debited, record.intent, now, p.maxAge, first)
      && d == if first.ranking != [] && p.rerank.Some? then p.rerank.value(record, first, debited, now) else first;
    DecidedSorted(debited, record.intent, now, p.maxAge, first);
    assert Sorted(first);
  }

  /** Rank the hosts, and rank them anew if the policy does. */
  method RankHosts(record: Record, debited: seq<Snapshot>, now: Time, p: Policy) returns (d: Decision)
    requires Reranks(p) && UniqueHosts(debited) && NamedHosts(debited)
    ensures Ranks(p, record, debited, now, d) && Sorted(d) && Sound(p, record, debited, now, d)
  {
    hide HostBlocker, Sorted, Sound, Decided, Reranks;
    d := PlaceBrokerJob(debited, record.intent, now, p.maxAge);
    if d.ranking != [] && p.rerank.Some? { d := p.rerank.value(record, d, debited, now); }
    RanksSound(p, record, debited, now, d);
  }

  /** The decision's blockers and those of the walk are about different hosts, so sorting them
      puts them in order. */
  lemma AllBlockersSorted(d: Decision, skipped: Blockers)
    requires Sorted(d) && |skipped| <= |d.ranking|
    requires forall m :: 0 <= m < |skipped| ==> skipped[m].0 == d.ranking[m] && skipped[m].1 != ""
    ensures StringOrder.AscendingNames(StringOrder.SortPairs(d.blockers + skipped))
    ensures BlockersOk(StringOrder.SortPairs(d.blockers + skipped))
  {
    hide StringOrder.Less, StringOrder.SortPairs;
    var all := d.blockers + skipped;
    forall i, k | 0 <= i < k < |all| ensures all[i].0 != all[k].0 {
      if k < |d.blockers| { StringOrder.AscendingDistinct(d.blockers, i, k); }
    }
    StringOrder.SortAscends(all);
    var sorted := StringOrder.SortPairs(all);
    forall i | 0 <= i < |sorted| ensures sorted[i].0 != "" && sorted[i].1 != "" {
      assert sorted[i] in multiset(all);
      var k :| 0 <= k < |all| && all[k] == sorted[i];
    }
  }

  /** Every host offered that may not take the job is listed with its reason. */
  ghost predicate Explains(records: Records, record: Record, snapshots: seq<Snapshot>, now: Time, p: Policy,
                           blockers: Blockers)
  {
    forall s :: s in snapshots && !Eligible(Debited(s, records), record.intent, now, p.maxAge) ==>
      (s.host, HostBlocker(Debited(s, records), record.intent, now, p.maxAge).value.Text()) in blockers
  }

  /** Without a re-ranking, the host is preferred to every other that could take the job. */
  ghost predicate Best(records: Records, record: Record, snapshots: seq<Snapshot>, now: Time, p: Policy, s: Snapshot) {
    p.rerank.None? ==>
      forall other :: other in snapshots && other.host != s.host && Usable(p, record, other.host)
                      && Eligible(Debited(other, records), record.intent, now, p.maxAge) ==>
        Prefers(Debited(s, records), Debited(other, records))
  }

  lemma ReasonsGiven(records: Records, record: Record, snapshots: seq<Snapshot>, debited: seq<Snapshot>, now: Time,
                     p: Policy, d: Decision, skipped: Blockers, blockers: Blockers)
    requires AllDebited(snapshots, debited, records)
    requires forall i :: 0 <= i < |debited| ==> debited[i].host == snapshots[i].host
    requires Sound(p, record, debited, now, d)
    requires multiset(blockers) == multiset(d.blockers + skipped)
    ensures Explains(records, record, snapshots, now, p, blockers)
  {
    hide HostBlocker, Debited, Reason.Text;
    forall s | s in snapshots && !Eligible(Debited(s, records), record.intent, now, p.maxAge)
      ensures (s.host, HostBlocker(Debited(s, records), record.intent, now, p.maxAge).value.Text()) in blockers
    {
      var i :| 0 <= i < |snapshots| && snapshots[i] == s;
      assert debited[i] in debited;
      var b := (s.host, HostBlocker(debited[i], record.intent, now, p.maxAge).value.Text());
      assert b in d.blockers + skipped;
      SameMembers(blockers, d.blockers + skipped, b);
    }
  }

  /** No ranked host is usable, so every host offered is ruled out. */
  lemma NobodyLeft(records: Records, record: Record, snapshots: seq<Snapshot>, debited: seq<Snapshot>, now: Time,
                   p: Policy, d: Decision, skipped: Blockers, blockers: Blockers)
    requires multiset(blockers) == multiset(d.blockers + skipped) && |skipped| == |d.ranking|
    requires forall m :: 0 <= m < |skipped| ==> skipped[m].0 == d.ranking[m]
    requires debited == DebitedAll(snapshots, records)
    requires forall i :: 0 <= i < |debited| ==> debited[i].host == snapshots[i].host
    requires Sound(p, record, debited, now, d)
    requires forall m :: 0 <= m < |d.ranking| ==> !Usable(p, record, d.ranking[m])
    ensures NoHost(records, record, snapshots, now, p)
    ensures forall s :: s in snapshots ==> Listed(s.host, blockers)
  {
    hide HostBlocker, Debited, Usable, Dropped, Reason.Text;
    forall s | s in snapshots ensures RuledOut(records, record, snapshots, now, p, s) && Listed(s.host, blockers) {
      var i :| 0 <= i < |snapshots| && snapshots[i] == s;
      assert debited[i] in debited;
      EligibleIff(debited[i], record.intent, now, p.maxAge);
      HostListed(p, record, debited, now, d, skipped, blockers, i);
    }
  }

  lemma HostListed(p: Policy, record: Record, debited: seq<Snapshot>, now: Time, d: Decision,
                   skipped: Blockers, blockers: Blockers, i: nat)
    requires multiset(blockers) == multiset(d.blockers + skipped) && |skipped| == |d.ranking|
    requires forall m :: 0 <= m < |skipped| ==> skipped[m].0 == d.ranking[m]
    requires Sound(p, record, debited, now, d) && i < |debited|
    ensures Listed(debited[i].host, blockers)
  {
    hide HostBlocker, Dropped, Reason.Text;
    var host := debited[i].host;
    assert debited[i] in debited;
    var b: (string, string);
    if host in d.ranking {
      var m :| 0 <= m < |d.ranking| && d.ranking[m] == host;
      b := skipped[m];
      assert (d.blockers + skipped)[|d.blockers| + m] == b;
    } else {
      assert Listed(host, d.blockers);
      var why :| (host, why) in d.blockers;
      b := (host, why);
      assert b in d.blockers + skipped;
    }
    SameMembers(blockers, d.blockers + skipped, b);
    assert (host, b.1) in blockers;
  }

  /** A host that a decided ranking passes over only for unusable ones is preferred to every other
      eligible host. */
  lemma RankedFirst(record: Record, debited: seq<Snapshot>, now: Time, p: Policy, d: Decision, m: nat,
                    s: Snapshot, other: Snapshot)
    requires Decided(debited, record.intent, now, p.maxAge, d) && m < |d.ranking| && Shows(debited, d.ranking[m], s)
    requires forall n :: 0 <= n < m ==> !Usable(p, record, d.ranking[n])
    requires other in debited && other.host != s.host && Usable(p, record, other.host)
    requires Eligible(other, record.intent, now, p.maxAge)
    ensures Prefers(s, other)
  {
    hide HostBlocker, Usable, Prefers, Reason.Text, StringOrder.AscendingNames;
    var n :| 0 <= n < |d.ranking| && d.ranking[n] == other.host;
    assert Shows(debited, d.ranking[n], other);
  }

  /** The first usable host of a ranking in order is preferred to every later one. */
  lemma FirstIsBest(records: Records, record: Record, snapshots: seq<Snapshot>, debited: seq<Snapshot>, now: Time,
                    p: Policy, d: Decision, m: nat, i: nat)
    requires debited == DebitedAll(snapshots, records) && Ranks(p, record, debited, now, d)
    requires forall k :: 0 <= k < |debited| ==> debited[k].host == snapshots[k].host
    requires m < |d.ranking| && i < |debited| && debited[i].host == d.ranking[m]
    requires forall n :: 0 <= n < m ==> !Usable(p, record, d.ranking[n])
    ensures Best(records, record, snapshots, now, p, snapshots[i])
  {
    hide HostBlocker, Debited, Usable, Prefers, Decided, Eligible, Reason.Text;
    if p.rerank.None? {
      forall other | other in snapshots && other.host != snapshots[i].host && Usable(p, record, other.host)
                     && Eligible(Debited(other, records), record.intent, now, p.maxAge)
        ensures Prefers(debited[i], Debited(other, records))
      {
        var k :| 0 <= k < |snapshots| && snapshots[k] == other;
        RankedFirst(record, debited, now, p, d, m, debited[i], debited[k]);
      }
    }
  }

  lemma AdmittedAt(p: Policy, record: Record, debited: seq<Snapshot>, now: Time, d: Decision, m: nat) returns (k: nat)
    requires UniqueHosts(debited) && Sound(p, record, debited, now, d) && m < |d.ranking|
    ensures k < |debited| && debited[k].host == d.ranking[m] && Eligible(debited[k], record.intent, now, p.maxAge)
    ensures forall i :: 0 <= i < |debited| && debited[i].host == d.ranking[m] ==> i == k
  {
    hide HostBlocker, Dropped, Reason.Text;
    assert d.ranking[m] in d.ranking;
    var s :| Shows(debited, d.ranking[m], s) && Eligible(s, record.intent, now, p.maxAge);
    k :| 0 <= k < |debited| && debited[k] == s;
  }

  lemma SortedFacts(d: Decision)
    requires Sorted(d)
    ensures StringOrder.AscendingNames(d.blockers) && BlockersOk(d.blockers)
    ensures forall i :: 0 <= i < |d.ranking| ==> d.ranking[i] != ""
  {
  }

  /** The reservation to make, if a ranked host is usable: on the debited snapshot of the first
      such host, which the snapshot admits. */
  method Choose(records: Records, record: Record, snapshots: seq<Snapshot>, now: Time, p: Policy)
    returns (choice: Option<Op>, blockers: Blockers, i: nat)
    requires (forall j :: j in records ==> Grounded(records[j])) && Reranks(p)
    requires UniqueHosts(snapshots) && NamedHosts(snapshots)
    ensures choice.Some? ==>
      && choice.value.Reserve? && i < |snapshots| && choice.value.snapshot == Debited(snapshots[i], records)
      && Eligible(choice.value.snapshot, record.intent, now, p.maxAge) && Usable(p, record, snapshots[i].host)
      && Best(records, record, snapshots, now, p, snapshots[i])
      && Chosen(p, choice.value) && Placeable(choice.value)
    ensures choice.None? ==>
      NoHost(records, record, snapshots, now, p) && forall s :: s in snapshots ==> Listed(s.host, blockers)
    ensures StringOrder.AscendingNames(blockers) && BlockersOk(blockers)
    ensures Explains(records, record, snapshots, now, p, blockers)
  {
    hide Grounded, Totals, Debited, HostBlocker, Reranks, StartsWith, BlockersOk, Sorted, Prefers, Sound;
    hide Eligible, Ranks, StringOrder.AscendingNames, StringOrder.SortPairs, Reason.Holds, Reason.Text, NoHost;
    hide Best, Explains;
    var charges := OutstandingCharges(records);
    var debited := DebitSnapshots(snapshots, charges, records);
    DebitedHosts(snapshots, debited, records);
    var decision := RankHosts(record, debited, now, p);
    SortedFacts(decision);
    var ranking := decision.ranking;
    if ranking == [] {
      ReasonsGiven(records, record, snapshots, debited, now, p, decision, [], decision.blockers);
      NobodyLeft(records, record, snapshots, debited, now, p, decision, [], decision.blockers);
      return None, decision.blockers, 0;
    }
    var m, skipped := Walk(record, ranking, p);
    blockers := StringOrder.SortPairs(decision.blockers + skipped);
    AllBlockersSorted(decision, skipped);
    ReasonsGiven(records, record, snapshots, debited, now, p, decision, skipped, blockers);
    if m == |ranking| {
      NobodyLeft(records, record, snapshots, debited, now, p, decision, skipped, blockers);
      return None, blockers, 0;
    }
    ghost var k := AdmittedAt(p, record, debited, now, decision, m);
    i := IndexOf(debited, ranking[m]);
    choice := Some(Reserve(Some(ranking[m]), debited[i], p.rootOf(ranking[m]).value,
                           seq(|ranking|, n requires 0 <= n < |ranking| => JStr(ranking[n])), blockers));
    FirstIsBest(records, record, snapshots, debited, now, p, decision, m, i);
  }

  lemma Keyed(w: World, j: string)
    requires Sane(w) && j in w.records
    ensures w.records[j].jobId == j && Grounded(w.records[j])
  {
  }

  lemma HeldSaves(r: Record, blockers: Blockers, now: Time)
    requires r.state == Held && BlockersOk(blockers)
    ensures var next := Next(r, RecordHeldBlockers(blockers), now);
            (next.Some? <==> r.cancellation.None?) && (next.Some? ==> next.value.heldBlockers == blockers)
  {
  }

  /** Nothing but a used-up record stands in the way of a reservation on a held one. */
  lemma ReserveRefused(r: Record, op: Op, now: Time)
    requires Placeable(op) && r.state == Held && r.cancellation.None? && Next(r, op, now).None?
    ensures |r.attempts| >= ATTEMPTS_MAX
  {
  }

  lemma ReservedKey(w: World, j: string, op: Op)
    requires Sane(w) && j in w.records && op.Reserve? && Next(w.records[j], op, w.clock).Some?
    ensures Next(w.records[j], op, w.clock).value.jobId == j
  {
    hide Grounded, Next;
    NextMoves(w.records[j], op, w.clock);
  }

  lemma BeginWrites(r: Record, now: Time)
    requires Next(r, BeginTransfer, now).Some?
    ensures var r' := Next(r, BeginTransfer, now).value; r'.state == Transferring && r'.jobId == r.jobId
  {
    hide TransferFingerprint;
  }

  lemma AllGrounded(w: World)
    requires Sane(w)
    ensures forall j :: j in w.records ==> Grounded(w.records[j])
  {
  }

  lemma ReserveFits(w: World, j: string, op: Op, s: Snapshot, now: Time, maxAge: Time)
    requires Sane(w) && j in w.records && op.Reserve? && Next(w.records[j], op, w.clock).Some?
    requires op.snapshot == Debited(s, w.records) && Eligible(op.snapshot, w.records[j].intent, now, maxAge)
    ensures var r' := Next(w.records[j], op, w.clock).value;
            && r'.state == Reserved && Fits(s, w.records[j := r'])
            && forall host :: host != s.host ==>
                 Outstanding(w.records[j := r'], host) == Outstanding(w.records, host)
  {
    hide Next, Grounded, Fingerprinted, Outstanding, Everywhere, Fits, HostBlocker, Open;
    var r, r' := w.records[j], Next(w.records[j], op, w.clock).value;
    ReserveWrites(r, op, w.clock);
    AdmittedIff(s, r.intent, now, maxAge, w.records, j, r');
    forall host | host != s.host
      ensures Outstanding(w.records[j := r'], host) == Outstanding(w.records, host)
    {
      ReserveElsewhere(w.records, j, r', host);
    }
  }

  // --------------------------------------------------------------------
  // What a placement loop leaves behind

  /** After this much of the trace the job is not there to be read as held. */
  ghost predicate Left(trace: seq<Step>, at: nat, j: string)
    requires at <= |trace|
  {
    var records := Run(START, trace[..at]).records;
    j !in records || records[j].state != Held
  }

  /** The trace falls into one stretch per job tried, in the queue's order, and each job is
      reserved for only in its own stretch. */
  ghost predicate Stretches(queue: seq<string>, before: seq<Step>, after: seq<Step>, marks: seq<nat>) {
    && 1 <= |marks| <= |queue| + 1 && before <= after
    && marks[0] == |before| && marks[|marks| - 1] == |after|
    && (forall m, n :: 0 <= m <= n < |marks| ==> marks[m] <= marks[n])
    && (forall t :: |before| <= t < |after| && IsReserve(after[t]) ==> InStretch(queue, after, marks, t))
  }

  /** The first `n` stretches each end with their job gone from the queue. */
  ghost predicate Passed(queue: seq<string>, after: seq<Step>, marks: seq<nat>, n: nat) {
    n < |marks| && n <= |queue| && forall m :: 0 <= m < n ==> PassedOne(queue, after, marks, m)
  }

  ghost predicate PassedOne(queue: seq<string>, after: seq<Step>, marks: seq<nat>, m: nat) {
    m < |queue| && m + 1 < |marks| && marks[m + 1] <= |after| && Left(after, marks[m + 1], queue[m])
  }

  /** Strict order: the walk stops at the head, and every job before it left the queue first. */
  ghost predicate Fifo(queue: seq<string>, before: seq<Step>, after: seq<Step>, marks: seq<nat>, head: Option<string>) {
    && Stretches(queue, before, after, marks)
    && (if head.None? then |marks| == |queue| + 1 && Passed(queue, after, marks, |queue|)
        else |marks| >= 2 && head.value == queue[|marks| - 2] && Passed(queue, after, marks, |marks| - 2))
  }

  ghost predicate InStretch(queue: seq<string>, after: seq<Step>, marks: seq<nat>, t: nat) {
    exists m :: 0 <= m < |marks| - 1 && m < |queue| && marks[m] <= t < marks[m + 1] && t < |after|
                && IsReserve(after[t]) && after[t].jobId == queue[m]
  }

  /** At each reservation its snapshot had room for all that was then outstanding, and on a
      direct host it still has. */
  ghost predicate RoomKept(from: nat, trace: seq<Step>, snapshots: seq<Snapshot>, records: Records) {
    forall t :: from <= t < |trace| && IsReserve(trace[t]) ==> RoomAt(trace, t, snapshots, records)
  }

  ghost predicate RoomAt(trace: seq<Step>, t: nat, snapshots: seq<Snapshot>, records: Records)
    requires t < |trace| && IsReserve(trace[t])
  {
    exists i :: 0 <= i < |snapshots| && snapshots[i].host == trace[t].op.snapshot.host
                && Fits(snapshots[i], Run(START, trace[..t + 1]).records)
                && (!snapshots[i].isScheduler ==> Fits(snapshots[i], records))
  }

  lemma StretchStep(queue: seq<string>, before: seq<Step>, mid: seq<Step>, after: seq<Step>, marks: seq<nat>)
    requires Stretches(queue, before, mid, marks) && |marks| <= |queue| && mid <= after
    requires forall t :: |mid| <= t < |after| && IsReserve(after[t]) ==> after[t].jobId == queue[|marks| - 1]
    ensures Stretches(queue, before, after, marks + [|after|])
  {
    var marks' := marks + [|after|];
    forall t | |before| <= t < |after| && IsReserve(after[t]) ensures InStretch(queue, after, marks', t) {
      if t < |mid| {
        assert InStretch(queue, mid, marks, t);
        var m :| 0 <= m < |marks| - 1 && m < |queue| && marks[m] <= t < marks[m + 1]
                 && mid[t].jobId == queue[m];
        assert marks'[m] <= t < marks'[m + 1];
      } else {
        assert marks'[|marks| - 1] <= t < marks'[|marks|];
      }
    }
  }

  lemma PassedStands(queue: seq<string>, mid: seq<Step>, after: seq<Step>, marks: seq<nat>, mark: nat, n: nat)
    requires Passed(queue, mid, marks, n) && mid <= after
    ensures Passed(queue, after, marks + [mark], n)
  {
    hide Run;
    forall m | 0 <= m < n ensures PassedOne(queue, after, marks + [mark], m) {
      assert PassedOne(queue, mid, marks, m);
      assert mid[..marks[m + 1]] == after[..marks[m + 1]];
    }
  }

  lemma StretchStart(queue: seq<string>, trace: seq<Step>)
    ensures Stretches(queue, trace, trace, [|trace|]) && Passed(queue, trace, [|trace|], 0)
    ensures forall snapshots, records :: RoomKept(|trace|, trace, snapshots, records)
  {
  }

  lemma PassedStep(queue: seq<string>, after: seq<Step>, marks: seq<nat>, n: nat)
    requires Passed(queue, after, marks, n) && n < |queue| && n + 1 < |marks| && marks[n + 1] <= |after|
    requires Left(after, marks[n + 1], queue[n])
    ensures Passed(queue, after, marks, n + 1)
  {
    hide Left;
    assert PassedOne(queue, after, marks, n);
  }

  lemma RoomQuiet(from: nat, before: seq<Step>, after: seq<Step>, snapshots: seq<Snapshot>,
                  records: Records, records': Records)
    requires RoomKept(from, before, snapshots, records) && Quiet(before, after) && from <= |before|
    requires SameCharges(records, records')
    ensures RoomKept(from, after, snapshots, records')
  {
    hide Fits, Run, SameCharges;
    forall t | from <= t < |after| && IsReserve(after[t]) ensures RoomAt(after, t, snapshots, records') {
      assert t < |before|;
      assert RoomAt(before, t, snapshots, records);
      var i :| 0 <= i < |snapshots| && snapshots[i].host == before[t].op.snapshot.host
               && Fits(snapshots[i], Run(START, before[..t + 1]).records)
               && (!snapshots[i].isScheduler ==> Fits(snapshots[i], records));
      assert after[..t + 1] == before[..t + 1];
      if !snapshots[i].isScheduler { FitsStands(snapshots[i], records, records'); }
    }
  }

  lemma RoomBooked(from: nat, before: seq<Step>, after: seq<Step>, snapshots: seq<Snapshot>, k: nat,
                   records: Records, records': Records, j: string, at: nat)
    requires RoomKept(from, before, snapshots, records) && from <= |before| && k < |snapshots|
    requires UniqueHosts(snapshots) && Booked(before, after, at, j, snapshots[k])
    requires !snapshots[k].isScheduler ==> Fits(snapshots[k], records')
    requires forall host :: host != snapshots[k].host ==>
      Outstanding(records', host) == Outstanding(records, host)
    ensures RoomKept(from, after, snapshots, records')
  {
    hide Fits, Run, Outstanding;
    forall t | from <= t < |after| && IsReserve(after[t]) ensures RoomAt(after, t, snapshots, records') {
      if t < |before| {
        assert RoomAt(before, t, snapshots, records);
        var i :| 0 <= i < |snapshots| && snapshots[i].host == before[t].op.snapshot.host
                 && Fits(snapshots[i], Run(START, before[..t + 1]).records)
                 && (!snapshots[i].isScheduler ==> Fits(snapshots[i], records));
        assert after[..t + 1] == before[..t + 1];
        if !snapshots[i].isScheduler && i != k { RoomStands(snapshots[i], records, records'); }
      } else {
        assert t == at;
      }
    }
  }

  /** A reservation on another host, or none, leaves the room on this one. */
  lemma RoomStands(s: Snapshot, records: Records, records': Records)
    requires !s.isScheduler && Fits(s, records) && Outstanding(records', s.host) == Outstanding(records, s.host)
    ensures Fits(s, records')
  {
    hide Outstanding;
  }

  lemma ChosenStart(p: Policy, trace: seq<Step>)
    ensures AllChosen(p, |trace|, trace)
  {
  }

  lemma ChosenOn(p: Policy, from: nat, before: seq<Step>, after: seq<Step>)
    requires AllChosen(p, from, before) && before <= after && AllChosen(p, |before|, after)
    ensures AllChosen(p, from, after)
  {
  }

  lemma ChosenBooked(p: Policy, before: seq<Step>, after: seq<Step>, at: nat, j: string, s: Snapshot)
    requires Booked(before, after, at, j, s) && Chosen(p, after[at].op)
    ensures AllChosen(p, |before|, after)
  {
  }

  lemma DebitedHosts(snapshots: seq<Snapshot>, debited: seq<Snapshot>, records: Records)
    requires UniqueHosts(snapshots) && NamedHosts(snapshots) && AllDebited(snapshots, debited, records)
    ensures UniqueHosts(debited) && NamedHosts(debited) && debited == DebitedAll(snapshots, records)
    ensures forall i :: 0 <= i < |debited| ==> debited[i].host == snapshots[i].host
  {
    hide Outstanding, Everywhere;
  }

  lemma DebitedStands(s: Snapshot, records: Records, records': Records)
    requires SameCharges(records, records')
    ensures Debited(s, records') == Debited(s, records)
  {
    hide Outstanding, Everywhere;
  }

  lemma BookedStands(before: seq<Step>, quiet: seq<Step>, booked: seq<Step>, after: seq<Step>, j: string, s: Snapshot)
    requires Quiet(before, quiet) && |booked| == |quiet| + 1 && quiet <= booked && Quiet(booked, after)
    requires IsReserve(booked[|quiet|]) && booked[|quiet|].jobId == j
    requires booked[|quiet|].op.snapshot.host == s.host && Fits(s, Run(START, booked).records)
    ensures Booked(before, after, |quiet|, j, s)
  {
    hide Fits, Run;
    assert after[..|quiet| + 1] == booked;
  }

  /** Only the reserved host's outstanding charges change. */
  lemma ReserveElsewhere(records: Records, j: string, r: Record, host: string)
    requires j in records && Hold(records[j]).None? && Hold(r).Some? && Hold(r).value.0 != host
    ensures Outstanding(records[j := r], host) == Outstanding(records, host)
  {
    hide Outstanding;
    OutstandingUpdate(records, j, r, host);
  }

  /** A snapshot that fits goes on fitting while the charges stay. */
  lemma FitsStands(s: Snapshot, records: Records, records': Records)
    requires SameCharges(records, records') && Fits(s, records)
    ensures Fits(s, records')
  {
    hide Outstanding, Everywhere;
  }

  class Broker {
    var world: World
    ghost var trace: seq<Step>

    ghost predicate Valid()
      reads this
    {
      Sane(world) && world == Run(START, trace)
    }

    constructor ()
      ensures Valid() && trace == []
    {
      world, trace := START, [];
    }

    method Do(step: Step)
      requires Valid()
      modifies this
      ensures Valid() && world == Apply(old(world), step) && trace == old(trace) + [step]
    {
      hide Apply, Sane, Run;
      RunAppend(START, trace, step);
      StaysSane(world, step);
      world := Apply(world, step);
      trace := trace + [step];
    }

    /** Everything else in the fleet runs for a while. */
    method Others()
      requires Valid()
      modifies this
      ensures Valid() && Undisturbed(old(world), world)
      ensures Quiet(old(trace), trace) && NoSend(old(trace), trace)
      ensures SameCharges(old(world).records, world.records)
    {
      hide Apply, Sane, Run, Grounded, Outstanding, Everywhere;
      var turns: nat := *;
      while turns > 0
        invariant Valid() && Undisturbed(old(world), world)
        invariant Quiet(old(trace), trace) && NoSend(old(trace), trace)
        invariant SameCharges(old(world).records, world.records)
      {
        var step: Step := *;
        if Foreign(step) {
          ForeignUndisturbs(world, step);
          ForeignCharges(world, step);
          QuietAppend(old(trace), trace, step);
          Do(step);
        }
        turns := turns - 1;
      }
    }

    /** Compare-and-swap under the writer lock; a refused transition writes nothing. */
    method Update(j: string, expected: int, op: Op) returns (r: Option<Record>)
      requires Valid() && !op.FenceTransfer? && !op.SettleCharge?
      requires op.RecordPlaced? ==> Answered(world, j, op.fingerprint, op.targetJobId)
      modifies this
      ensures Valid() && r == Attempted(old(world), j, expected, op)
      ensures r.None? ==> world == old(world) && trace == old(trace)
      ensures r.Some? ==> && world == old(world).(records := old(world).records[j := r.value])
                          && trace == old(trace) + [StepOf(j, expected, op)]
    {
      hide Sane, Run, Next, Answered;
      r := Attempted(world, j, expected, op);
      if r.Some? {
        Do(StepOf(j, expected, op));
      }
    }

    /** Release a placed job's charge on a target's answer. */
    method Settle(j: string, expected: int, s: Sample) returns (r: Option<Record>)
      requires Valid() && SettleEvidence(world, j, s)
      modifies this
      ensures Valid() && r == Attempted(old(world), j, expected, SettleCharge)
      ensures r.None? ==> world == old(world) && trace == old(trace)
      ensures r.Some? ==> && world == old(world).(records := old(world).records[j := r.value])
                          && trace == old(trace) + [Step.Settle(j, expected, s)]
    {
      hide Sane, Run, Next, SettleEvidence;
      r := Attempted(world, j, expected, SettleCharge);
      if r.Some? {
        Do(Step.Settle(j, expected, s));
      }
    }

    /** Return a transfer on its target's fence. */
    method ReturnFenced(j: string, expected: int, proof: string) returns (r: Option<Record>)
      requires Valid() && FenceAnswered(world, j)
      modifies this
      ensures Valid() && r == Attempted(old(world), j, expected, FenceTransfer(proof))
      ensures r.None? ==> world == old(world) && trace == old(trace)
      ensures r.Some? ==> && world == old(world).(records := old(world).records[j := r.value])
                          && trace == old(trace) + [Step.Return(j, expected, proof)]
    {
      hide Sane, Run, Next, FenceAnswered;
      r := Attempted(world, j, expected, FenceTransfer(proof));
      if r.Some? {
        Do(Step.Return(j, expected, proof));
      }
    }

    /** A transition that must not be lost to a concurrent writer: tried on the record as it was
        read, and once more on the current one. Only a cancellation can come between, and it
        can come only once, so the second try is always written. */
    method RetryOnConflict(record: Record, op: Op) returns (r: Option<Record>)
      requires Valid() && record.jobId in world.records && Nudged(record, world.records[record.jobId])
      requires Ready(record, op)
      requires op.RecordPlaced? ==> Answered(world, record.jobId, op.fingerprint, op.targetJobId)
      modifies this
      ensures Valid() && Quiet(old(trace), trace) && SameCharges(old(world).records, world.records)
      ensures NoSend(old(trace), trace)
      ensures r.Some? && record.jobId in world.records && world.records[record.jobId] == r.value
      ensures r.value.state == (if op.RecordPlaced? then Placed else Transferring)
      ensures op.RecordPlaced? ==>
        r.value.attempts != [] && r.value.attempts[|r.value.attempts| - 1].targetJobId == Some(op.targetJobId)
    {
      hide Sane, Run, Next, Answered, Ready, Grounded, Undisturbed, SameCharges, Quiet;
      var j := record.jobId;
      r := TryWrite(record, record.revision, op);
      if r.None? {
        var current := world.records[j];
        ReadyOp(current, op);
        if current.state != Transferring || NewestFingerprint(current) != NewestFingerprint(record) {
          return None;
        }
        ghost var w, t := world, trace;
        r := TryWrite(current, current.revision, op);
        SameChargesTrans(old(world).records, w.records, world.records);
        QuietTwice(old(trace), t, trace);
        NoSendTwice(old(trace), t, trace);
      }
    }

    /** One try at a transition that is accepted on the record as read. It fails only to a
        cancellation, which leaves it accepted still. */
    method TryWrite(record: Record, expected: int, op: Op) returns (r: Option<Record>)
      requires Valid() && record.jobId in world.records && Nudged(record, world.records[record.jobId])
      requires expected == record.revision && Ready(record, op)
      requires op.RecordPlaced? ==> Answered(world, record.jobId, op.fingerprint, op.targetJobId)
      modifies this
      ensures Valid() && Quiet(old(trace), trace) && SameCharges(old(world).records, world.records)
      ensures NoSend(old(trace), trace)
      ensures record.jobId in world.records
      ensures r.Some? ==>
        && world.records[record.jobId] == r.value && r.value.attempts != []
        && r.value.state == (if op.RecordPlaced? then Placed else Transferring)
        && (op.RecordPlaced? ==> r.value.attempts[|r.value.attempts| - 1].targetJobId == Some(op.targetJobId))
      ensures r.None? ==>
        && record.cancellation.None? && Nudged(record, world.records[record.jobId])
        && world.records[record.jobId].cancellation.Some? && world.records[record.jobId].jobId == record.jobId
        && Ready(world.records[record.jobId], op)
        && (op.RecordPlaced? ==> Answered(world, record.jobId, op.fingerprint, op.targetJobId))
    {
      hide Sane, Run, Next, Answered, Ready, Grounded, Grows, SameCharges;
      var j := record.jobId;
      ghost var w0 := world;
      Others();
      ghost var w := world;
      if op.RecordPlaced? { AnsweredStands(w0, w, j, op.fingerprint, op.targetJobId); }
      NudgedTwice(record, w0.records[j], w.records[j]);
      ReadyNudged(record, w.records[j], op);
      ReadyOp(record, op);
      ReadyWrites(w.records[j], op, w.clock);
      OwnWrite(w, j, op);
      r := Update(j, expected, op);
      SameChargesTrans(w0.records, w.records, world.records);
    }

    /** Send or replay the recorded request to its fixed target. Nothing that can fail comes
        after the send: an answer is recorded whoever else writes meanwhile. */
    method Transfer(record: Record, observed: Option<string>, p: Policy) returns (out: Outcome)
      requires Valid() && record.jobId in world.records
      modifies this
      ensures Valid() && Quiet(old(trace), trace) && SameCharges(old(world).records, world.records)
      ensures record.jobId in world.records
      ensures old(world).records[record.jobId].state != Held ==> world.records[record.jobId].state != Held
      ensures !out.HeldBack?
      ensures NoSend(old(trace), trace) <==>
        out.Raised? || out.CancelPending? || (out.Uncertain? && Seen(record, observed, p) != Some(Root(record)))
      ensures out.PlacedAt? ==> Seen(record, observed, p) == Some(Root(record))
      ensures !NoSend(old(trace), trace) ==>
        RequestOf(record).Some? && SentOnce(old(trace), trace, RequestOf(record).value)
      ensures out.CancelPending? ==> record.cancellation.Some? || world.records[record.jobId].cancellation.Some?
      ensures out.Raised? ==> RefusedSince(|old(trace)|, trace, record, p)
      ensures out.PlacedAt? ==>
        var r := world.records[record.jobId];
        r.state == Placed && r.attempts != [] && r.attempts[|r.attempts| - 1].targetJobId == Some(out.id)
    {
      hide Sane, Run, Next, Answered, Ready, Grounded, ClaimOf, Outstanding, Everywhere, TransferFingerprint;
      hide IntentDigest, TargetJobIdOk, ParseReason, Blank;
      var j := record.jobId;
      if record.cancellation.Some? && record.attempts != [] {
        return CancelPending(record.attempts[|record.attempts| - 1].targetHost);
      }
      Others();
      var request := RequestOf(world.records[j]);
      if world.records[j] != record || request.None? || !p.intact(j, world.clock) {
        RefusedNow(|old(trace)|, trace, world, record, p);
        return Raised;
      }
      ghost var t0 := trace;
      var a := record.attempts[|record.attempts| - 1];
      var root := if observed.Some? then observed else p.rootOf(a.targetHost);
      if root != Some(a.targetRoot) {
        NotBlank("replay held");
        out := Doubt(record, "replay held");
      } else {
        out := SendOnce(record, request.value);
        if !out.CancelPending? { SentWithin(old(trace), t0, trace, trace, request.value); }
      }
    }

    /** The request goes out; a cancellation that comes now is too late to stop it. */
    method Exchange(j: string)
      requires Valid() && j in world.records && world.records[j].cancellation.None?
      requires RequestOf(world.records[j]).Some?
      modifies this
      ensures Valid() && Quiet(old(trace), trace) && SameCharges(old(world).records, world.records)
      ensures j in world.records && Nudged(old(world).records[j], world.records[j])
      ensures RequestOf(old(world).records[j]).value in world.sent
      ensures !NoSend(old(trace), trace) && SentOnce(old(trace), trace, RequestOf(old(world).records[j]).value)
    {
      hide Sane, Run, Apply, Grounded, Grows, SameCharges, RequestOf, Quiet;
      ghost var w0, t0 := world, trace;
      ArmSends(w0, j);
      Do(Arm(j));
      ghost var w1, t1 := world, trace;
      Others();
      ghost var w2, t2 := world, trace;
      SendGoes(w2);
      Do(Send);
      ghost var t3 := trace;
      Others();
      NudgedTwice(w0.records[j], w2.records[j], world.records[j]);
      SameChargesTrans(w0.records, w2.records, world.records);
      QuietGap(t0, t1, t2, t3, trace, Arm(j));
      SendShows(t0, t1, t2, trace, Arm(j), RequestOf(w0.records[j]).value);
    }

    /** Past the last check: one send, then whatever the target answered, if it answered. */
    method SendOnce(record: Record, request: Request) returns (out: Outcome)
      requires Valid() && record.jobId in world.records && world.records[record.jobId] == record
      requires RequestOf(record) == Some(request)
      modifies this
      ensures Valid() && Quiet(old(trace), trace) && SameCharges(old(world).records, world.records)
      ensures record.jobId in world.records && world.records[record.jobId].state != Held
      ensures out.CancelPending? || out.Uncertain? || out.PlacedAt?
      ensures out.CancelPending? <==> NoSend(old(trace), trace)
      ensures out.CancelPending? ==> world.records[record.jobId].cancellation.Some?
      ensures !out.CancelPending? ==> SentOnce(old(trace), trace, request)
      ensures out.PlacedAt? ==>
        var r := world.records[record.jobId];
        r.state == Placed && r.attempts != [] && r.attempts[|r.attempts| - 1].targetJobId == Some(out.id)
    {
      hide Sane, Run, Next, Answered, Grounded, ClaimOf, Outstanding, Everywhere, TransferFingerprint;
      hide IntentDigest, TargetJobIdOk, ParseReason, Blank, SentOnce;
      var j := record.jobId;
      var a := record.attempts[|record.attempts| - 1];
      Others();
      if world.records[j].cancellation.Some? { return CancelPending(a.targetHost); }
      ghost var t0 := trace;
      Exchange(j);
      ghost var t1 := trace;
      var c := ClaimOf(world.claims, a.targetRoot, a.key);
      var answered: bool := *;
      if !answered || c.None? || c.value.Fenced? || !TargetJobIdOk(c.value.id) {
        NotBlank("transfer outcome unknown");
        out := Doubt(record, "transfer outcome unknown");
        SentWithin(old(trace), t0, t1, trace, request);
        return;
      }
      var op := RecordPlaced(request.fingerprint, c.value.id);
      AnswerHeard(world, j, a, c.value.id);
      var placed := RetryOnConflict(record, op);
      SentWithin(old(trace), t0, t1, trace, request);
      out := PlacedAt(a.targetHost, c.value.id);
    }

    /** Keep the evidence of a transfer in doubt. */
    method Doubt(record: Record, message: string) returns (out: Outcome)
      requires Valid() && record.jobId in world.records && Nudged(record, world.records[record.jobId])
      requires record.state == Transferring && record.attempts != [] && !Blank(message)
      modifies this
      ensures Valid() && Quiet(old(trace), trace) && SameCharges(old(world).records, world.records)
      ensures record.jobId in world.records && world.records[record.jobId].state == Transferring
      ensures NoSend(old(trace), trace)
      ensures out == Uncertain(record.attempts[|record.attempts| - 1].targetHost)
    {
      hide Sane, Run, Next, Answered, Grounded, Outstanding, Everywhere, Blank;
      var r := RetryOnConflict(record, RecordDiagnostic(message));
      out := Uncertain(record.attempts[|record.attempts| - 1].targetHost);
    }

    /** Place one held job now, or leave it held with the reasons. `at` is the position of the
        reservation in the trace, when there is one. */
    method PlaceLocked(j: string, snapshots: seq<Snapshot>, p: Policy)
      returns (out: Outcome, ghost at: Option<nat>, ghost k: nat)
      requires Valid() && Reranks(p) && UniqueHosts(snapshots) && NamedHosts(snapshots)
      modifies this
      ensures Valid() && old(trace) <= trace && AllChosen(p, |old(trace)|, trace)
      ensures at.None? ==> Quiet(old(trace), trace) && SameCharges(old(world).records, world.records)
      ensures at.Some? ==> k < |snapshots| && Booked(old(trace), trace, at.value, j, snapshots[k])
      ensures at.Some? && !snapshots[k].isScheduler ==> Fits(snapshots[k], world.records)
      ensures at.Some? ==> forall host :: host != snapshots[k].host ==>
        Outstanding(world.records, host) == Outstanding(old(world).records, host)
      ensures out.HeldBack? ==>
        && at.None? && NoHostSince(|old(trace)|, trace, j, snapshots, p)
        && (forall s :: s in snapshots ==> Listed(s.host, out.blockers))
        && j in world.records && world.records[j].heldBlockers == out.blockers
      ensures !out.HeldBack? && !out.Raised? ==> j in world.records && world.records[j].state != Held
      ensures out.Raised? ==> HinderedSince(|old(trace)|, trace, j, p)
    {
      hide Sane, Run, Next, Fits, Outstanding, Everywhere, Grounded, Reranks, NoHostSince, Booked, Chosen, SameCharges;
      hide HinderedSince, Listed, UniqueHosts, NamedHosts, NoSend, Grows, SavesSorted;
      at, k := None, 0;
      ghost var w0 := world;
      Others();
      if j !in world.records || world.records[j].state != Held {
        HinderedNow(|old(trace)|, trace, trace, world, j, p);
        return Raised, at, k;
      }
      var record := world.records[j];
      ghost var w1 := world;
      Keyed(world, j);
      Others();
      ghost var mid, w := trace, world;
      SameChargesTrans(w0.records, w1.records, w.records);
      out, at, k := PlaceRecord(record, snapshots, p);
      SameOutstanding(w0.records, w.records);
      if at.Some? { BookedSince(old(trace), mid, trace, at.value, j, snapshots[k]); }
      if out.HeldBack? { NoHostStands(|mid|, |old(trace)|, trace, trace, j, snapshots, p); }
      if at.None? { SameChargesTrans(w0.records, w.records, world.records); }
      if out.Raised? { HinderedStands(|mid|, |old(trace)|, trace, trace, j, p); }
    }

    /** The decision on the record as read, and what follows from it. */
    method PlaceRecord(record: Record, snapshots: seq<Snapshot>, p: Policy)
      returns (out: Outcome, ghost at: Option<nat>, ghost k: nat)
      requires Valid() && Reranks(p) && UniqueHosts(snapshots) && NamedHosts(snapshots) && record.state == Held
      requires record.jobId in world.records && Nudged(record, world.records[record.jobId])
      modifies this
      ensures Valid() && old(trace) <= trace && AllChosen(p, |old(trace)|, trace)
      ensures at.None? ==> Quiet(old(trace), trace) && SameCharges(old(world).records, world.records)
      ensures at.Some? ==> k < |snapshots| && Booked(old(trace), trace, at.value, record.jobId, snapshots[k])
      ensures at.Some? && !snapshots[k].isScheduler ==> Fits(snapshots[k], world.records)
      ensures at.Some? ==> forall host :: host != snapshots[k].host ==>
        Outstanding(world.records, host) == Outstanding(old(world).records, host)
      ensures out.HeldBack? ==>
        && at.None? && NoHostSince(|old(trace)|, trace, record.jobId, snapshots, p)
        && (forall s :: s in snapshots ==> Listed(s.host, out.blockers))
        && record.jobId in world.records && world.records[record.jobId].heldBlockers == out.blockers
      ensures !out.HeldBack? && !out.Raised? ==>
        record.jobId in world.records && world.records[record.jobId].state != Held
      ensures out.Raised? ==> HinderedSince(|old(trace)|, trace, record.jobId, p)
    {
      hide Sane, Run, Next, Fits, Outstanding, Everywhere, Grounded, HostBlocker, Debited, Eligible, Reranks;
      hide Usable, StartsWith, BlockersOk, TransferFingerprint, NoHost, NoHostSince, Booked, Chosen, Best, Explains;
      hide HinderedSince, Placeable, StringOrder.AscendingNames;
      at := None;
      AllGrounded(world);
      var choice, blockers, i := Choose(world.records, record, snapshots, world.clock, p);
      k := i;
      if choice.None? {
        ghost var now, w := trace, world;
        Others();
        out := HoldBack(record, blockers);
        NoHostNow(|old(trace)|, now, trace, w, record, snapshots, p);
        if out.Raised? { HinderedNow(|old(trace)|, trace, trace, world, record.jobId, p); }
      } else if !p.intact(record.jobId, world.clock) {
        HinderedNow(|old(trace)|, trace, trace, world, record.jobId, p);
        out := Raised;
      } else {
        out, at := Book(record, choice.value, snapshots[i], world.clock, p);
      }
    }

    /** Reserve, write `transferring`, and only then send. */
    method Book(record: Record, op: Op, ghost s: Snapshot, ghost now: Time, p: Policy)
      returns (out: Outcome, ghost at: Option<nat>)
      requires Valid() && record.jobId in world.records && Nudged(record, world.records[record.jobId])
      requires op.Reserve? && op.snapshot == Debited(s, world.records)
      requires Eligible(op.snapshot, record.intent, now, p.maxAge) && Chosen(p, op)
      requires record.state == Held && Placeable(op)
      modifies this
      ensures Valid() && old(trace) <= trace && AllChosen(p, |old(trace)|, trace)
      ensures at.None? ==> Quiet(old(trace), trace) && SameCharges(old(world).records, world.records)
      ensures at.Some? ==> Booked(old(trace), trace, at.value, record.jobId, s)
      ensures at.Some? && !s.isScheduler ==> Fits(s, world.records)
      ensures at.Some? ==> forall host :: host != s.host ==>
        Outstanding(world.records, host) == Outstanding(old(world).records, host)
      ensures !out.HeldBack?
      ensures !out.Raised? ==> record.jobId in world.records && world.records[record.jobId].state != Held
      ensures out.Raised? ==> HinderedSince(|old(trace)|, trace, record.jobId, p)
    {
      hide Sane, Run, Next, Fits, Outstanding, Everywhere, Grounded, Eligible;
      hide StartsWith, BlockersOk, TransferFingerprint, HinderedSince, Placeable;
      var j := record.jobId;
      at := None;
      ghost var w0 := world;
      Others();
      DebitedStands(s, w0.records, world.records);
      ghost var w1, quiet := world, trace;
      var reserved := Update(j, record.revision, op);
      if reserved.None? {
        if w1.records[j] == record && record.cancellation.None? { ReserveRefused(record, op, w1.clock); }
        HinderedNow(|old(trace)|, trace, trace, world, j, p);
        return Raised, at;
      }
      ReserveFits(w1, j, op, s, now, p.maxAge);
      ReservedKey(w1, j, op);
      at := Some(|quiet|);
      ghost var booked, w2 := trace, world;
      out := Launch(reserved.value, op.root, p);
      FitsStands(s, w2.records, world.records);
      BookedStands(old(trace), quiet, booked, trace, j, s);
      assert trace[|quiet|] == booked[|quiet|] == StepOf(j, record.revision, op);
      ChosenBooked(p, old(trace), trace, |quiet|, j, s);
      HinderedNow(|old(trace)|, trace, trace, world, j, p);
    }

    /** Write `transferring` on the reservation, then send. */
    method Launch(reserved: Record, root: string, p: Policy) returns (out: Outcome)
      requires Valid() && reserved.jobId in world.records && world.records[reserved.jobId].state == Reserved
      modifies this
      ensures Valid() && Quiet(old(trace), trace) && SameCharges(old(world).records, world.records)
      ensures reserved.jobId in world.records && world.records[reserved.jobId].state != Held
      ensures !out.HeldBack?
    {
      hide Sane, Run, Next, Outstanding, Everywhere, Grounded, TransferFingerprint;
      var j := reserved.jobId;
      Others();
      ghost var w := world;
      Keyed(w, j);
      var begun := Update(j, reserved.revision, BeginTransfer);
      if begun.None? { return Raised; }
      OwnWrite(w, j, BeginTransfer);
      BeginWrites(w.records[j], w.clock);
      out := Transfer(begun.value, Some(root), p);
    }

    /** Save why the job stays held; a writer that came first turns this into a conflict. */
    method HoldBack(record: Record, blockers: Blockers) returns (out: Outcome)
      requires Valid() && record.jobId in world.records && Nudged(record, world.records[record.jobId])
      requires record.state == Held && StringOrder.AscendingNames(blockers) && BlockersOk(blockers)
      modifies this
      ensures Valid() && Quiet(old(trace), trace) && SameCharges(old(world).records, world.records)
      ensures out == HeldBack(blockers) || out == Raised
      ensures out.HeldBack? ==> record.jobId in world.records && world.records[record.jobId].heldBlockers == blockers
      ensures out.Raised? ==>
        && record.jobId in world.records
        && (world.records[record.jobId].state != Held || world.records[record.jobId].cancellation.Some?)
    {
      hide Run, Next, Fits, BlockersOk, StringOrder.AscendingNames, Outstanding, Everywhere, Grounded;
      ghost var w := world;
      SameChargesRefl(world.records);
      var saved := Update(record.jobId, record.revision, RecordHeldBlockers(blockers));
      HeldSaves(record, blockers, w.clock);
      if saved.Some? { OwnWrite(w, record.jobId, RecordHeldBlockers(blockers)); }
      out := if saved.Some? then HeldBack(blockers) else Raised;
    }

    /** The held jobs in order, each tried only once every earlier one has left the queue. The
        job that stays at the front is one that no host could take, or the walk was stopped. */
    method PlaceQueue(queue: seq<string>, snapshots: seq<Snapshot>, p: Policy)
      returns (head: Option<string>, stopped: bool, ghost marks: seq<nat>)
      requires Valid() && Reranks(p) && UniqueHosts(snapshots) && NamedHosts(snapshots)
      modifies this
      ensures if head.Some? then Stays(|old(trace)|, trace, head.value, stopped, snapshots, p) else !stopped
      ensures Valid() && Fifo(queue, old(trace), trace, marks, head)
      ensures RoomKept(|old(trace)|, trace, snapshots, world.records) && AllChosen(p, |old(trace)|, trace)
    {
      hide Sane, Run, Fits, Outstanding, Everywhere, Grounded, Reranks, Left, Stretches, Passed, RoomKept;
      hide Booked, AllChosen, NoHostSince, HinderedSince;
      ChosenStart(p, trace);
      head, stopped := None, false;
      marks := [|trace|];
      StretchStart(queue, trace);
      var n := 0;
      while n < |queue|
        invariant 0 <= n <= |queue| && Valid() && |marks| == n + 1 && !stopped
        invariant Stretches(queue, old(trace), trace, marks) && Passed(queue, trace, marks, n)
        invariant RoomKept(|old(trace)|, trace, snapshots, world.records)
        invariant |old(trace)| <= |trace| && AllChosen(p, |old(trace)|, trace)
      {
        var held;
        ghost var before, marks0 := trace, marks;
        held, stopped := TryNext(queue[n], snapshots, p, |old(trace)|);
        marks := marks + [|trace|];
        ChosenOn(p, |old(trace)|, before, trace);
        StretchStep(queue, old(trace), before, trace, marks0);
        PassedStands(queue, before, trace, marks0, |trace|, n);
        n := n + 1;
        if held {
          if stopped {
            HinderedStands(|before|, |old(trace)|, trace, trace, queue[n - 1], p);
          } else {
            NoHostStands(|before|, |old(trace)|, trace, trace, queue[n - 1], snapshots, p);
          }
          return Some(queue[n - 1]), stopped, marks;
        }
        PassedStep(queue, trace, marks, n - 1);
      }
    }

    /** Try the job at the front; true if it stays there, because no host could take it or,
        when `stopped`, because of a failure that left it held. */
    method TryNext(j: string, snapshots: seq<Snapshot>, p: Policy, ghost from: nat) returns (held: bool, stopped: bool)
      requires Valid() && Reranks(p) && UniqueHosts(snapshots) && NamedHosts(snapshots)
      requires from <= |trace| && RoomKept(from, trace, snapshots, world.records)
      modifies this
      ensures Valid() && old(trace) <= trace && RoomKept(from, trace, snapshots, world.records)
      ensures forall t :: |old(trace)| <= t < |trace| && IsReserve(trace[t]) ==> trace[t].jobId == j
      ensures AllChosen(p, |old(trace)|, trace)
      ensures !held ==> !stopped && Left(trace, |trace|, j)
      ensures held && !stopped ==> NoHostSince(|old(trace)|, trace, j, snapshots, p)
      ensures held && stopped ==> HinderedSince(|old(trace)|, trace, j, p)
    {
      hide Sane, Run, Fits, Outstanding, Everywhere, Grounded, Reranks, RoomKept, NoHostSince, HinderedSince;
      ghost var before, w := trace, world;
      var out, at, k := PlaceLocked(j, snapshots, p);
      assert trace[..|trace|] == trace;
      if at.Some? {
        RoomBooked(from, before, trace, snapshots, k, w.records, world.records, j, at.value);
      } else {
        RoomQuiet(from, before, trace, snapshots, w.records, world.records);
      }
      stopped := false;
      if out.HeldBack? { return true, false; }
      if out.Raised? {
        ghost var after, w' := trace, world;
        Others();
        RoomQuiet(from, after, trace, snapshots, w'.records, world.records);
        HinderedStands(|before|, |before|, after, trace, j, p);
        assert trace[..|trace|] == trace;
        held := j in world.records && world.records[j].state == Held;
        stopped := held;
      } else {
        held := false;
      }
    }
  }
}
