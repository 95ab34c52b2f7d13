/** Runs from the empty broker that show why the conditions on runs are needed, and a record that
    shows why the one on blockers is. */
module BrokerCounterexamples {
  import opened Common
  import opened JsonModel
  import opened BrokerRecord
  import opened BrokerProtocol
  import BrokerJson
  import StringOrder

  /** A job and the reservation made for it. */
  ghost predicate Sendable(j: string, intent: Intent, op: Op) {
    && BrokerJobIdOk(j) && IntentOk(intent) && op.Reserve?
    && op.host == Some(op.snapshot.host) && op.snapshot.host != "" && StartsWith(op.root, "/")
  }

  const PAYLOAD := Bytes(0)

  /** Accepted, reserved for, transferring, and sent. */
  ghost function Sending(j: string, intent: Intent, op: Op): seq<Step> {
    [Accept(j, intent, PAYLOAD, 0), Change(j, 1, op), Change(j, 2, BeginTransfer), Arm(j), Send]
  }

  ghost function HeldRecord(j: string, intent: Intent): Record {
    NewRecord(j, intent, PAYLOAD, 0, 0.0)
  }

  ghost function ReservedRecord(j: string, intent: Intent, op: Op): Record
    requires op.Reserve?
  {
    var r := HeldRecord(j, intent);
    r.(state := Reserved, attempts := [NewAttempt(r, op, 0.0)], heldBlockers := [], revision := 2, updatedAt := 0.0)
  }

  ghost function SentRecord(j: string, intent: Intent, op: Op): Record
    requires op.Reserve?
  {
    var r := ReservedRecord(j, intent, op);
    var a := r.attempts[0];
    r.(state := Transferring, revision := 3,
       attempts := [a.(phase := Transferring, transferStartedAt := Some(0.0),
                       fingerprint := Some(TransferFingerprint(r, a)))])
  }

  lemma SentRequest(j: string, intent: Intent, op: Op)
    requires Sendable(j, intent, op)
    ensures Next(HeldRecord(j, intent), op, 0.0) == Some(ReservedRecord(j, intent, op))
    ensures Next(ReservedRecord(j, intent, op), BeginTransfer, 0.0) == Some(SentRecord(j, intent, op))
    ensures RequestOf(SentRecord(j, intent, op)).Some?
    ensures var q := RequestOf(SentRecord(j, intent, op)).value; q.root == op.root && q.key == j
  {
    hide SnapshotDoc, DictMembers, ReservationId, StartsWith, BrokerJobIdOk, IntentOk, IntentDigest;
    var r := ReservedRecord(j, intent, op);
    assert HeldRecord(j, intent).attempts + r.attempts == r.attempts;
    assert r.attempts[..0] + [SentRecord(j, intent, op).attempts[0]] == SentRecord(j, intent, op).attempts;
  }

  /** The world once a job's request has left. */
  ghost function SentWorld(j: string, intent: Intent, op: Op): World
    requires op.Reserve?
  {
    var r := SentRecord(j, intent, op);
    World(map[j := r], map[], if RequestOf(r).Some? then {RequestOf(r).value} else {}, None, 0.0, map[], {})
  }

  lemma SendingRun(j: string, intent: Intent, op: Op)
    requires Sendable(j, intent, op)
    ensures Run(START, Sending(j, intent, op)) == SentWorld(j, intent, op)
  {
    hide Run, Next, NewRecord, RequestOf, BrokerJobIdOk, IntentOk, StartsWith, HeldRecord, ReservedRecord, SentRecord;
    SentRequest(j, intent, op);
    HeldFirst(j, intent);
    var steps := Sending(j, intent, op);
    var w1 := START.(records := map[j := HeldRecord(j, intent)]);
    var w2 := START.(records := map[j := ReservedRecord(j, intent, op)]);
    var w3 := START.(records := map[j := SentRecord(j, intent, op)]);
    RecordShape(j, intent, op);
    assert Apply(START, steps[0]) == w1;
    assert w1.records[j := ReservedRecord(j, intent, op)] == w2.records;
    assert Apply(w1, steps[1]) == w2;
    assert w2.records[j := SentRecord(j, intent, op)] == w3.records;
    assert Apply(w2, steps[2]) == w3;
    var w4 := w3.(armed := RequestOf(SentRecord(j, intent, op)));
    assert Apply(w3, steps[3]) == w4;
    assert Apply(w4, steps[4]) == SentWorld(j, intent, op);
    RunOn(START, steps);
    RunOn(w1, steps[1..]);
    RunOn(w2, steps[2..]);
    RunOn(w3, steps[3..]);
    RunOn(w4, steps[4..]);
    RunDone(SentWorld(j, intent, op));
    assert steps[1..][1..] == steps[2..] && steps[2..][1..] == steps[3..];
    assert steps[3..][1..] == steps[4..] && steps[4..][1..] == [];
  }

  lemma HeldFirst(j: string, intent: Intent)
    ensures HeldRecord(j, intent) == NewRecord(j, intent, PAYLOAD, 0, 0.0)
  {
  }

  lemma RecordShape(j: string, intent: Intent, op: Op)
    requires op.Reserve?
    ensures HeldRecord(j, intent).revision == 1 && ReservedRecord(j, intent, op).revision == 2
    ensures SentRecord(j, intent, op).revision == 3 && SentRecord(j, intent, op).cancellation.None?
  {
    hide NewAttempt, TransferFingerprint;
  }

  lemma RunOn(w: World, steps: seq<Step>)
    requires steps != []
    ensures Run(w, steps) == Run(Apply(w, steps[0]), steps[1..])
  {
    hide Apply;
  }

  lemma RunDone(w: World)
    ensures Run(w, []) == w
  {
  }

  // --------------------------------------------------------------------
  // Two roots for one job

  /** The request a run sent goes astray once and comes home once. */
  ghost function Stray(q: Request, stray: string, id: string, id': string): seq<Step> {
    [Deliver(q, stray, id), Deliver(q, q.root, id')]
  }

  /** For every job that can be sent at all: its run from the empty broker on, with one copy
      delivered astray, ends with two roots holding the job. */
  lemma StrayRunBreaks(j: string, intent: Intent, op: Op, stray: string, id: string, id': string)
    requires Sendable(j, intent, op) && stray != op.root && id != id'
    ensures RequestOf(SentRecord(j, intent, op)).Some?
    ensures var q := RequestOf(SentRecord(j, intent, op)).value;
            var w := Run(START, Sending(j, intent, op) + Stray(q, stray, id, id'));
            AcceptedAt(w.claims, stray, j) && AcceptedAt(w.claims, op.root, j)
  {
    hide Run, RequestOf, BrokerJobIdOk, IntentOk, StartsWith, SentRecord, ClaimOf;
    SentRequest(j, intent, op);
    SendingRun(j, intent, op);
    var q := RequestOf(SentRecord(j, intent, op)).value;
    RunBoth(START, Sending(j, intent, op), Stray(q, stray, id, id'));
    NoClaims(stray, j, id);
    NoClaims(q.root, j, id');
    StrayDeliveryBreaks(SentWorld(j, intent, op), q, stray, id, id');
  }

  lemma NoClaims(root: string, key: string, id: string)
    ensures ClaimOf(map[], root, key).None? && !IdUsed(map[], id)
  {
  }

  // --------------------------------------------------------------------
  // A job that nothing counts

  ghost function PlacedRecord(j: string, intent: Intent, op: Op, id: string): Record
    requires op.Reserve?
  {
    var r := SentRecord(j, intent, op);
    r.(state := Placed, revision := 4,
       attempts := [r.attempts[0].(phase := Placed, targetJobId := Some(id), acceptedAt := Some(0.0))])
  }

  /** The target accepts, the broker hears of it, and time passes. */
  ghost function Placing(j: string, q: Request, id: string): seq<Step> {
    [Deliver(q, q.root, id), Place(j, 3, q.fingerprint, id), Tick(1.0)]
  }

  ghost function PlacedWorld(j: string, intent: Intent, op: Op, id: string): World
    requires Sendable(j, intent, op) && RequestOf(SentRecord(j, intent, op)).Some?
  {
    var q := RequestOf(SentRecord(j, intent, op)).value;
    World(map[j := PlacedRecord(j, intent, op, id)], map[q.root := map[j := Accepted(id, q.content, 0.0)]],
          {q}, None, 1.0, map[], {})
  }

  lemma PlacedNext(j: string, intent: Intent, op: Op, id: string)
    requires Sendable(j, intent, op) && TargetJobIdOk(id)
    ensures RequestOf(SentRecord(j, intent, op)).Some?
    ensures var q := RequestOf(SentRecord(j, intent, op)).value;
            Next(SentRecord(j, intent, op), RecordPlaced(q.fingerprint, id), 0.0)
            == Some(PlacedRecord(j, intent, op, id))
  {
    hide SnapshotDoc, DictMembers, ReservationId, StartsWith, BrokerJobIdOk, IntentOk, IntentDigest, TargetJobIdOk;
    hide TransferFingerprint;
    SentRequest(j, intent, op);
    var r := SentRecord(j, intent, op);
    assert r.attempts[..0] + [PlacedRecord(j, intent, op, id).attempts[0]] == PlacedRecord(j, intent, op, id).attempts;
  }

  /** The first delivery anywhere is accepted. */
  lemma FirstDelivery(w: World, q: Request, id: string)
    requires w.claims == map[] && q in w.sent
    ensures Apply(w, Deliver(q, q.root, id))
            == w.(claims := map[q.root := map[q.key := Accepted(id, q.content, w.clock)]])
  {
    NoClaims(q.root, q.key, id);
  }

  lemma HeardOf(w: World, j: string, r: Record, q: Request, id: string)
    requires w.records == map[j := r] && |r.attempts| == 1 && r.attempts[0].fingerprint == Some(q.fingerprint)
    requires w.claims == map[q.root := map[q.key := Accepted(id, q.content, 0.0)]]
    requires r.attempts[0].targetRoot == q.root && r.attempts[0].key == q.key
    requires Next(r, RecordPlaced(q.fingerprint, id), w.clock).Some?
    ensures Apply(w, Place(j, r.revision, q.fingerprint, id))
            == w.(records := map[j := Next(r, RecordPlaced(q.fingerprint, id), w.clock).value])
  {
    hide Next;
    var a := w.records[j].attempts[0];
    assert ClaimOf(w.claims, a.targetRoot, a.key) == Some(Accepted(id, q.content, 0.0));
    assert Answered(w, j, q.fingerprint, id);
    var r' := Next(r, RecordPlaced(q.fingerprint, id), w.clock).value;
    assert w.records[j := r'] == map[j := r'];
  }

  lemma PlacingRun(j: string, intent: Intent, op: Op, id: string)
    requires Sendable(j, intent, op) && TargetJobIdOk(id)
    ensures RequestOf(SentRecord(j, intent, op)).Some?
    ensures var q := RequestOf(SentRecord(j, intent, op)).value;
            Run(START, Sending(j, intent, op) + Placing(j, q, id)) == PlacedWorld(j, intent, op, id)
  {
    hide Run, Apply, Next, RequestOf, Sendable, TargetJobIdOk, SentRecord, PlacedRecord, Sending;
    assert op.Reserve? by { Reserves(j, intent, op); }
    PlacedNext(j, intent, op, id);
    SentRequest(j, intent, op);
    SendingRun(j, intent, op);
    var q := RequestOf(SentRecord(j, intent, op)).value;
    var steps := Placing(j, q, id);
    RunBoth(START, Sending(j, intent, op), steps);
    var w := SentWorld(j, intent, op);
    RecordShape(j, intent, op);
    SentAttempt(j, intent, op);
    FirstDelivery(w, q, id);
    var w1 := w.(claims := map[q.root := map[j := Accepted(id, q.content, 0.0)]]);
    HeardOf(w1, j, SentRecord(j, intent, op), q, id);
    var w2 := w1.(records := map[j := PlacedRecord(j, intent, op, id)]);
    TickTo(w2, 1.0);
    ThreeSteps(w, w1, w2, PlacedWorld(j, intent, op, id), steps);
  }

  lemma TickTo(w: World, elapsed: Time)
    requires elapsed >= 0.0
    ensures Apply(w, Tick(elapsed)) == w.(clock := w.clock + elapsed)
  {
  }

  lemma ThreeSteps(w: World, w1: World, w2: World, w3: World, steps: seq<Step>)
    requires |steps| == 3 && Apply(w, steps[0]) == w1 && Apply(w1, steps[1]) == w2 && Apply(w2, steps[2]) == w3
    ensures Run(w, steps) == w3
  {
    hide Run, Apply;
    RunOn(w, steps);
    RunOn(w1, steps[1..]);
    RunOn(w2, steps[2..]);
    RunDone(w3);
    assert steps[1..][1..] == steps[2..] && steps[2..][1..] == [];
  }

  lemma SentAttempt(j: string, intent: Intent, op: Op)
    requires op.Reserve? && RequestOf(SentRecord(j, intent, op)).Some?
    ensures var r := SentRecord(j, intent, op); var q := RequestOf(r).value;
            && |r.attempts| == 1 && r.attempts[0].fingerprint == Some(q.fingerprint)
            && r.attempts[0].targetRoot == q.root && r.attempts[0].key == q.key == j
  {
    hide TransferFingerprint, SnapshotDoc, DictMembers, ReservationId, IntentDigest;
  }

  /** An answer without figures, taken and used to settle. */
  ghost function Uncovering(j: string, root: string, id: string): seq<Step> {
    [Collect(root, 1.0, 1.0, false), Settle(j, 4, Sample(root, 1.0, 1.0, None, {id}))]
  }

  /** For every job that can be sent at all: it is placed, one answer without figures settles it,
      and neither its charge nor any figures count it, in a run with no stray delivery. */
  lemma FigurelessRunUncounts(j: string, intent: Intent, op: Op, id: string)
    requires Sendable(j, intent, op) && TargetJobIdOk(id)
    ensures RequestOf(SentRecord(j, intent, op)).Some?
    ensures var q := RequestOf(SentRecord(j, intent, op)).value;
            var steps := Sending(j, intent, op) + Placing(j, q, id) + Uncovering(j, op.root, id);
            var w := Run(START, steps);
            && AllLandHome(steps) && AcceptedAt(w.claims, op.root, j) && op.root !in w.figures
            && j in w.records && w.records[j].attempts != []
            && var a := w.records[j].attempts[|w.records[j].attempts| - 1];
               a.phase == Placed && a.targetRoot == op.root && a.chargeReleasedAt.Some?
  {
    hide *;
    Reserves(j, intent, op);
    PlacingRun(j, intent, op, id);
    SentRequest(j, intent, op);
    var q := RequestOf(SentRecord(j, intent, op)).value;
    var placed := Sending(j, intent, op) + Placing(j, q, id);
    AllHome(j, intent, op, q, id);
    StartInv();
    RunKeeps(START, placed);
    RunBoth(START, placed, Uncovering(j, op.root, id));
    PlacedFacts(j, intent, op, id);
    FigurelessFrom(PlacedWorld(j, intent, op, id), j, op.root, id);
  }

  lemma Reserves(j: string, intent: Intent, op: Op)
    requires Sendable(j, intent, op)
    ensures op.Reserve?
  {
  }

  /** One answer without figures settles a placed job that is all its target has. */
  lemma FigurelessFrom(w: World, j: string, root: string, id: string)
    requires Inv(w) && Waiting(w, j, root, id)
    ensures var w' := Run(w, Uncovering(j, root, id));
            && AcceptedAt(w'.claims, root, j) && root !in w'.figures && j in w'.records && w'.records[j].attempts != []
            && var a := w'.records[j].attempts[|w'.records[j].attempts| - 1];
               a.phase == Placed && a.targetRoot == root && a.chargeReleasedAt.Some?
  {
    hide Run, Inv, AcceptedAt, JobsOf, Apply;
    FigurelessSettlementUncounts(w, j, w.records[j].attempts[0], Sample(root, 1.0, 1.0, None, {id}));
  }

  /** Placed, unsettled, and all that its target has; nothing was published. */
  ghost predicate Waiting(w: World, j: string, root: string, id: string) {
    && w.clock == 1.0 && w.figures == map[] && JobsOf(w.claims, root) == {id} && j in w.records
    && w.records[j].state == Placed && w.records[j].revision == 4 && |w.records[j].attempts| == 1
    && var a := w.records[j].attempts[0];
       a.chargeReleasedAt.None? && a.acceptedAt == Some(0.0) && a.targetRoot == root && a.phase == Placed
  }

  lemma PlacedFacts(j: string, intent: Intent, op: Op, id: string)
    requires Sendable(j, intent, op) && RequestOf(SentRecord(j, intent, op)).Some?
    ensures Waiting(PlacedWorld(j, intent, op, id), j, op.root, id)
  {
    hide RequestOf, SentRecord, PlacedRecord, JobsOf;
    var q := RequestOf(SentRecord(j, intent, op)).value;
    SentRequest(j, intent, op);
    PlacedAttempt(j, intent, op, id);
    OnlyJob(q.root, j, id, q.content);
  }

  lemma AllHome(j: string, intent: Intent, op: Op, q: Request, id: string)
    requires op.Reserve?
    ensures AllLandHome(Sending(j, intent, op) + Placing(j, q, id))
    ensures AllLandHome(Sending(j, intent, op) + Placing(j, q, id) + Uncovering(j, op.root, id))
  {
  }

  lemma OnlyJob(root: string, key: string, id: string, content: (Preimage, Preimage))
    ensures JobsOf(map[root := map[key := Accepted(id, content, 0.0)]], root) == {id}
  {
    var claims: Claims := map[root := map[key := Accepted(id, content, 0.0)]];
    assert claims[root][key].id == id;
  }

  lemma PlacedAttempt(j: string, intent: Intent, op: Op, id: string)
    requires Sendable(j, intent, op) && RequestOf(SentRecord(j, intent, op)).Some?
    ensures var r := PlacedRecord(j, intent, op, id);
            && r.state == Placed && r.revision == 4 && |r.attempts| == 1
            && r.attempts[0].chargeReleasedAt.None? && r.attempts[0].acceptedAt == Some(0.0)
            && r.attempts[0].targetRoot == op.root && r.attempts[0].phase == Placed
  {
    hide TransferFingerprint, SnapshotDoc, DictMembers, ReservationId, IntentDigest, BrokerJobIdOk, IntentOk;
    hide StartsWith;
  }

  // --------------------------------------------------------------------
  // Such jobs exist

  const JOB := "b-000000000000"
  const INTENT := Intent(["run"], 1, 1, None, 0, false, 0, None, None, None, [], false, None, 0, None, None)
  const SNAPSHOT := Snapshot("host", 0.0, Some(1), Some(1), Some(1), true, true, true, true, true, false, false,
                             None, None, None, [], None, 0, None)
  const RESERVE := Reserve(Some("host"), SNAPSHOT, "/state", [], [])

  lemma JobSendable()
    ensures Sendable(JOB, INTENT, RESERVE) && RESERVE.root == "/state" && TargetJobIdOk("1")
  {
  }

  /** So without a condition on deliveries two roots can hold one job. */
  lemma TwoRootsReachable()
    ensures exists steps, key, root, root' :: root != root'
              && AcceptedAt(Run(START, steps).claims, root, key) && AcceptedAt(Run(START, steps).claims, root', key)
  {
    hide *;
    JobSendable();
    StrayRunBreaks(JOB, INTENT, RESERVE, "/moved", "1", "2");
  }

  /** And without one on settlements an accepted job can go uncounted. */
  lemma UncountedReachable()
    ensures exists steps :: AllLandHome(steps) && !AllCounted(Run(START, steps))
  {
    hide *;
    JobSendable();
    FigurelessRunUncounts(JOB, INTENT, RESERVE, "1");
    var q := RequestOf(SentRecord(JOB, INTENT, RESERVE)).value;
    var steps := Sending(JOB, INTENT, RESERVE) + Placing(JOB, q, "1") + Uncovering(JOB, RESERVE.root, "1");
    NotCounted(Run(START, steps), JOB);
  }

  lemma NotCounted(w: World, j: string)
    requires j in w.records && w.records[j].attempts != []
    requires var a := w.records[j].attempts[|w.records[j].attempts| - 1];
             a.phase == Placed && a.chargeReleasedAt.Some? && a.targetRoot !in w.figures
    ensures !AllCounted(w)
  {
    assert !AttemptCounted(w, w.records[j].attempts[|w.records[j].attempts| - 1]);
  }

  // --------------------------------------------------------------------
  // Blockers out of order

  /** A held job takes any blockers its caller lists, and what is then stored is read back in
      another order when two of them are out of order. */
  lemma UnsortedBlockersReordered(one: string, other: string, why: string, wire: Intent -> bool)
    requires StringOrder.Less(one, other) && one != "" && other != "" && why != "" && wire(INTENT)
    ensures Next(HeldRecord(JOB, INTENT), RecordHeldBlockers([(other, why), (one, why)]), 0.0).Some?
    ensures var r := Next(HeldRecord(JOB, INTENT), RecordHeldBlockers([(other, why), (one, why)]), 0.0).value;
            BrokerJson.ParseRecord(BrokerJson.RecordDoc(r), wire) != Some(r)
  {
    hide BrokerJson.ParseRecord, BrokerJson.RecordDoc, Grounded;
    var op := RecordHeldBlockers([(other, why), (one, why)]);
    JobSendable();
    NewRecordGrounded(JOB, INTENT, PAYLOAD, 0, 0.0);
    NextKeepsGrounded(HeldRecord(JOB, INTENT), op, 0.0);
    var r := Next(HeldRecord(JOB, INTENT), op, 0.0).value;
    StringOrder.LessAsymmetric(one, other);
    NotSorted(r.heldBlockers);
    GroundedIsReadable(r);
    BrokerJson.RoundTripIffSorted(r, wire);
  }

  lemma NotSorted(b: Blockers)
    requires |b| == 2 && !StringOrder.Less(b[0].0, b[1].0)
    ensures !BrokerJson.SortedBlockers(b)
  {
    var hosts := BrokerJson.Hosts(b);
    assert hosts[0] == b[0].0 && hosts[1] == b[1].0;
  }
}
