/** The broker's transitions as a table: when each is accepted and what it writes, over the record's
    own fields (src/vq/broker_store.py:1235-1534). */
module BrokerTransitions {
  import opened Common
  import opened JsonModel
  import opened BrokerRecord

  // --------------------------------------------------------------------
  // Texts

  ghost predicate Over(s: string, from: nat, alphabet: string) {
    forall i :: from <= i < |s| ==> s[i] in alphabet
  }

  /** A job id is `b-` and twelve hexadecimal digits. */
  lemma JobIdMeans(s: string)
    ensures BrokerJobIdOk(s) <==> |s| == 14 && "b-" <= s && Over(s, 2, "0123456789abcdef")
  {
    if BrokerJobIdOk(s) {
      forall i | 2 <= i < |s| ensures s[i] in "0123456789abcdef" { HexMeans(s[i]); }
    }
    if |s| == 14 && "b-" <= s && Over(s, 2, "0123456789abcdef") {
      forall i | 2 <= i < 14 ensures IsHexDigit(s[i]) { HexMeans(s[i]); }
    }
  }

  lemma HexMeans(c: char)
    ensures IsHexDigit(c) <==> c in "0123456789abcdef"
  {
  }

  /** A target's job id is one path component of letters, digits, dots, underscores and hyphens. */
  lemma TargetIdMeans(s: string)
    ensures TargetJobIdOk(s) <==>
      && 1 <= |s| <= 160 && s != "." && s != ".."
      && forall i :: 0 <= i < |s| ==> s[i] in "0123456789._-" || 65 <= s[i] as int <= 90 || 97 <= s[i] as int <= 122
  {
  }

  /** A reason is refused exactly when there is nothing but white space in it, and otherwise kept up
      to its maximum length. */
  lemma ReasonMeans(s: string)
    ensures ParseReason(s).None? <==> Over(s, 0, " \t\n\r")
    ensures ParseReason(s).Some? ==> ParseReason(s).value == if |s| > 2000 then s[..2000] else s
  {
  }

  ghost predicate Says(s: string) {
    !Over(s, 0, " \t\n\r")
  }

  ghost function Kept(s: string): string {
    if |s| > 2000 then s[..2000] else s
  }

  // --------------------------------------------------------------------
  // What may be published

  /** What an attempt shows in each phase. */
  ghost predicate ShowsPhase(a: Attempt) {
    match a.phase
    case Reserved => a.targetJobId.None? && a.returnedAt.None? && a.chargeReleasedAt.None?
    case Transferring =>
      && a.targetJobId.None? && a.returnedAt.None? && a.chargeReleasedAt.None?
      && a.transferStartedAt.Some? && a.fingerprint.Some?
    case Placed => a.targetJobId.Some? && a.returnedAt.None? && a.transferStartedAt.Some? && a.fingerprint.Some?
    case Returned =>
      && a.targetJobId.None? && a.returnedAt.Some?
      && (a.transferStartedAt.Some? || a.fingerprint.Some? ==>
            a.returnReason.Some? && "fenced on target: " <= a.returnReason.value)
    case _ => a.targetJobId.None? && a.returnedAt.None?
  }

  /** What a record shows in each state: which attempt is open, and how far its cancellation is. */
  ghost predicate ShowsState(r: Record) {
    var last := if r.attempts == [] then None else Some(r.attempts[|r.attempts| - 1]);
    match r.state
    case Held => last.Some? ==> last.value.phase == Returned && last.value.chargeReleasedAt.Some?
    case Cancelled =>
      && (last.Some? ==> last.value.phase == Returned && last.value.chargeReleasedAt.Some?)
      && r.cancellation.Some? && r.cancellation.value.completedAt.Some?
    case _ => last.Some? && last.value.phase == r.state && r.heldBlockers == []
  }

  /** A record may be published exactly when its state and each of its attempts show what they must,
      every attempt but the newest is returned and released, and only a cancelled record's
      cancellation is complete. */
  lemma PublishableIff(r: Record)
    ensures Consistent(r) <==>
      && ShowsState(r) && (forall i :: 0 <= i < |r.attempts| ==> ShowsPhase(r.attempts[i]))
      && (forall i :: 0 <= i < |r.attempts| - 1 ==>
            r.attempts[i].phase == Returned && r.attempts[i].chargeReleasedAt.Some?)
      && (r.cancellation.Some? && r.cancellation.value.completedAt.Some? ==> r.state == Cancelled)
  {
    hide AttemptConsistent, ShowsPhase;
    forall i | 0 <= i < |r.attempts| ensures AttemptConsistent(r.attempts[i]) <==> ShowsPhase(r.attempts[i]) {
      PhaseMeans(r.attempts[i]);
    }
  }

  lemma PhaseMeans(a: Attempt)
    ensures AttemptConsistent(a) <==> ShowsPhase(a)
  {
    if a.returnReason.Some? {
      assert StartsWith(a.returnReason.value, FENCED_RETURN_PREFIX) <==> "fenced on target: " <= a.returnReason.value;
    }
  }

  /** An intent is refused exactly for one of these. */
  ghost predicate Unfit(t: Intent) {
    || t.command == [] || t.command[0] == "" || "-" <= t.command[0] || '\0' in t.command[0]
    || t.cpus < 1 || t.memMb < 1 || (t.wallTime.Some? && t.wallTime.value < 1) || t.pool == Some("")
    || (t.runtimeSeconds.Some? && (t.runtimeSeconds.value.0.AsReal() < 0.0
                                   || t.runtimeSeconds.value.1.AsReal() < t.runtimeSeconds.value.0.AsReal()))
  }

  lemma IntentMeans(t: Intent)
    ensures IntentOk(t) <==> !Unfit(t)
  {
  }

  // --------------------------------------------------------------------
  // When a transition is accepted

  ghost function Newest(r: Record): Attempt
    requires r.attempts != []
  {
    r.attempts[|r.attempts| - 1]
  }

  /** Held, and nobody has asked to cancel it. */
  ghost predicate Free(r: Record) {
    r.state == Held && r.cancellation.None?
  }

  ghost predicate Legal(r: Record, op: Op) {
    match op
    case RecordHeldBlockers(found) => Free(r) && forall b :: b in found ==> b.0 != "" && b.1 != ""
    case Reserve(host, snapshot, root, _, _) =>
      Free(r) && |r.attempts| < 1000 && host == Some(snapshot.host) && snapshot.host != "" && "/" <= root
    case BeginTransfer => r.state == Reserved && r.cancellation.None?
    case ReleaseReservation(reason) => r.state == Reserved && Says(reason)
    case FenceTransfer(proof) => r.state == Transferring && Says(proof)
    case RecordDiagnostic(message) => r.state == Transferring && Says(message)
    case RecordPlaced(fingerprint, id) =>
      r.state == Transferring && TargetJobIdOk(id) && r.attempts != [] && Newest(r).fingerprint == Some(fingerprint)
    case SettleCharge => r.state == Placed && r.attempts != [] && Newest(r).chargeReleasedAt.None?
    case ResumeHolding => r.state == Returned
    case RequestCancel(reason) => r.state != Cancelled && r.cancellation.None? && Says(reason)
  }

  /** A transition is accepted exactly when the table says so. */
  lemma LegalIff(r: Record, op: Op, now: Time)
    requires Grounded(r)
    ensures Next(r, op, now).Some? <==> Legal(r, op)
  {
    hide Consistent, IntentOk, BrokerJobIdOk, TargetJobIdOk, NewAttempt, TransferFingerprint, AttemptsGrounded;
    hide ParseReason;
    if r.state in {Reserved, Transferring, Placed, Returned} { LastAttempt(r); }
    match op {
      case RecordHeldBlockers(found) => assert BlockersOk(found) <==> forall b :: b in found ==> b.0 != "" && b.1 != "";
      case ReleaseReservation(reason) => ReasonMeans(reason);
      case FenceTransfer(proof) => ReasonMeans(proof);
      case RecordDiagnostic(message) => ReasonMeans(message);
      case RequestCancel(reason) => ReasonMeans(reason);
      case _ =>
    }
  }

  // --------------------------------------------------------------------
  // What it writes

  /** The state after it. */
  ghost function After(r: Record, op: Op): State {
    match op
    case Reserve(_, _, _, _, _) => Reserved
    case BeginTransfer => Transferring
    case RecordPlaced(_, _) => Placed
    case ReleaseReservation(_) => Returned
    case FenceTransfer(_) => Returned
    case ResumeHolding => if r.cancellation.Some? then Cancelled else Held
    case RequestCancel(_) => if r.state == Held then Cancelled else r.state
    case _ => r.state
  }

  /** The newest attempt after it, where there is one: what is new, and nothing else. */
  ghost predicate Rewrites(r: Record, op: Op, now: Time, a: Attempt, a': Attempt) {
    match op
    case BeginTransfer =>
      a' == a.(phase := Transferring, transferStartedAt := Some(now), fingerprint := Some(TransferFingerprint(r, a)))
    case RecordPlaced(_, id) => a' == a.(phase := Placed, targetJobId := Some(id), acceptedAt := Some(now))
    case ReleaseReservation(reason) => ReturnedFor(a, a', Kept(reason), now)
    case FenceTransfer(proof) => ReturnedFor(a, a', "fenced on target: " + Kept(proof), now)
    case SettleCharge => a' == a.(chargeReleasedAt := Some(now))
    case RecordDiagnostic(message) =>
      && a' == a.(diagnostics := a'.diagnostics) && |a'.diagnostics| <= 50
      && a'.diagnostics != [] && a'.diagnostics[|a'.diagnostics| - 1] == Kept(message)
      && exists dropped :: dropped + a'.diagnostics == a.diagnostics + [Kept(message)]
                           && (dropped != [] ==> |a'.diagnostics| == 50)
    case _ => a' == a
  }

  ghost predicate ReturnedFor(a: Attempt, a': Attempt, reason: string, now: Time) {
    a' == a.(phase := Returned, returnedAt := Some(now), returnReason := Some(reason), chargeReleasedAt := Some(now))
  }

  /** A reservation's attempt: numbered next, on the decision's host and root, charged with what the
      job asks for, and not begun. */
  ghost predicate Opens(r: Record, op: Op, now: Time, a: Attempt)
    requires op.Reserve?
  {
    && a.number == |r.attempts| + 1 && a.phase == Reserved && a.key == r.jobId
    && a.targetHost == op.snapshot.host && a.targetRoot == op.root && a.snapshot == SnapshotDoc(op.snapshot)
    && a.ranking == op.ranking && a.charge == Charge(r.intent.cpus, r.intent.memMb, 1) && a.decidedAt == now
    && a.reservationId == r.jobId + "." + Decimal(|r.attempts| + 1) && a.diagnostics == []
    && a.fingerprint.None? && a.transferStartedAt.None? && a.targetJobId.None? && a.acceptedAt.None?
    && a.returnedAt.None? && a.returnReason.None? && a.chargeReleasedAt.None?
    && (forall i :: 0 <= i < |op.found| && (forall k :: i < k < |op.found| ==> op.found[k].0 != op.found[i].0) ==>
          Named(op.found[i].0) in a.blockers && a.blockers[Named(op.found[i].0)] == JStr(op.found[i].1))
    && (forall n :: n in a.blockers ==> exists i :: 0 <= i < |op.found| && n == Named(op.found[i].0))
  }

  ghost function CancellationAfter(r: Record, op: Op, now: Time): Option<Cancellation> {
    match op
    case RequestCancel(reason) => Some(Cancellation(now, Kept(reason), if r.state == Held then Some(now) else None))
    case ResumeHolding =>
      if r.cancellation.None? then None else Some(r.cancellation.value.(completedAt := Some(now)))
    case _ => r.cancellation
  }

  /** The record's own fields after it. */
  ghost predicate Stamps(r: Record, op: Op, now: Time, r': Record) {
    && r'.revision == r.revision + 1 && r'.updatedAt == now && r'.state == After(r, op)
    && r'.cancellation == CancellationAfter(r, op, now)
    && r'.heldBlockers == (match op
                           case RecordHeldBlockers(found) => found
                           case Reserve(_, _, _, _, _) => []
                           case _ => r.heldBlockers)
    && r'.jobId == r.jobId && r'.intent == r.intent && r'.createdAt == r.createdAt
    && r'.payload == r.payload && r'.payloadSize == r.payloadSize
  }

  /** Its attempts after it. */
  ghost predicate Attempts(r: Record, op: Op, now: Time, r': Record) {
    if op.Reserve? then
      |r'.attempts| == |r.attempts| + 1 && r'.attempts[..|r.attempts|] == r.attempts && Opens(r, op, now, Newest(r'))
    else
      && |r'.attempts| == |r.attempts|
      && (r.attempts != [] ==>
            && r'.attempts[..|r.attempts| - 1] == r.attempts[..|r.attempts| - 1]
            && Rewrites(r, op, now, Newest(r), Newest(r')))
  }

  /** An accepted transition writes exactly that: the next revision, the time, the new state, and in
      the newest attempt and the cancellation only what the transition is about. */
  lemma WritesExactly(r: Record, op: Op, now: Time)
    requires Next(r, op, now).Some?
    ensures Stamps(r, op, now, Next(r, op, now).value) && Attempts(r, op, now, Next(r, op, now).value)
  {
    hide Next, Stamps, Attempts;
    StampsExactly(r, op, now);
    AttemptsExactly(r, op, now);
  }

  lemma StampsExactly(r: Record, op: Op, now: Time)
    requires Next(r, op, now).Some?
    ensures Stamps(r, op, now, Next(r, op, now).value)
  {
    hide TargetJobIdOk, TransferFingerprint, ParseReason, NewAttempt, BlockersOk, StartsWith, LastOf;
    if op.RequestCancel? { ReasonMeans(op.reason); }
  }

  lemma AttemptsExactly(r: Record, op: Op, now: Time)
    requires Next(r, op, now).Some?
    ensures Attempts(r, op, now, Next(r, op, now).value)
  {
    hide TargetJobIdOk, TransferFingerprint, ParseReason, Opens, BlockersOk, StartsWith, LastOf, NewAttempt;
    if op.Reserve? { OpensExactly(r, op, now); }
    if op.ReleaseReservation? { ReasonMeans(op.reason); }
    if op.FenceTransfer? { ReasonMeans(op.proof); }
    if op.RecordDiagnostic? {
      ReasonMeans(op.message);
      LastFifty(Newest(r).diagnostics + [Kept(op.message)]);
    }
  }

  lemma LastFifty(s: seq<string>)
    requires s != []
    ensures var t := LastOf(s, 50);
            && 0 < |t| <= 50 && t[|t| - 1] == s[|s| - 1]
            && exists dropped :: dropped + t == s && (dropped != [] ==> |t| == 50)
  {
    var t := LastOf(s, 50);
    assert s[..|s| - |t|] + t == s;
  }

  lemma OpensExactly(r: Record, op: Op, now: Time)
    requires op.Reserve?
    ensures Opens(r, op, now, NewAttempt(r, op, now))
  {
    hide SnapshotDoc, Decimal, Dict;
    forall i | 0 <= i < |op.found| && (forall k :: i < k < |op.found| ==> op.found[k].0 != op.found[i].0)
      ensures op.found[i].0 in Dict(op.found) && Dict(op.found)[op.found[i].0] == op.found[i].1
    {
      LastEntry(op.found, i);
    }
  }

  /** The last entry for a host is the one a dictionary keeps. */
  lemma {:induction false} LastEntry(b: Blockers, i: nat)
    requires i < |b| && forall k :: i < k < |b| ==> b[k].0 != b[i].0
    ensures b[i].0 in Dict(b) && Dict(b)[b[i].0] == b[i].1
  {
    if i < |b| - 1 {
      LastEntry(b[..|b| - 1], i);
    }
  }

  /** A write is made exactly when its view is current, its clock has started and the table allows the
      transition; then it is that transition's, and otherwise nothing changes. */
  lemma SwapWrites(r: Record, w: Write)
    requires Grounded(r)
    ensures Swap(r, w) != r <==> w.expected == r.revision && w.now >= 0.0 && Legal(r, w.op)
    ensures Swap(r, w) != r ==> Stamps(r, w.op, w.now, Swap(r, w)) && Attempts(r, w.op, w.now, Swap(r, w))
  {
    hide Grounded, Next, Legal, Attempts;
    LegalIff(r, w.op, w.now);
    if Next(r, w.op, w.now).Some? { WritesExactly(r, w.op, w.now); }
  }

  /** An accepted job starts held, at its first revision, with nothing tried and nothing cancelled. */
  lemma StartsHeld(jobId: string, intent: Intent, payload: Preimage, size: nat, now: Time)
    ensures var r := NewRecord(jobId, intent, payload, size, now);
            && r.jobId == jobId && r.intent == intent && r.payload == payload && r.payloadSize == size
            && r.revision == 1 && r.state == Held && r.createdAt == now && r.updatedAt == now
            && r.attempts == [] && r.cancellation.None? && r.heldBlockers == []
  {
  }

  // --------------------------------------------------------------------
  // What a reservation and a transfer write down

  ghost predicate Member(m: Members, n: Name, j: Json) {
    n in m && m[n] == j
  }

  ghost predicate SaysFigure(m: Members, n: Name, figure: Option<int>) {
    n in m && (if figure.None? then m[n] == JNull else m[n] == JNum(Whole(figure.value)))
  }

  /** A reservation records the snapshot figure by figure, with its authority and its runtime pins
      where it has them. */
  lemma SnapshotMeans(s: Snapshot)
    ensures var m := SnapshotDoc(s);
            && Member(m, KHost, JStr(s.host)) && Member(m, KObservedAt, JNum(Frac(s.observedAt)))
            && SaysFigure(m, KFreeCpus, s.freeCpus) && SaysFigure(m, KFreeMemMb, s.freeMemMb)
            && SaysFigure(m, KFreeJobs, s.freeJobs) && SaysFigure(m, KPendingCpus, Some(s.pendingCpus))
            && SaysFigure(m, KIdleSeconds, s.idleSeconds) && SaysFigure(m, KMaxWallTime, s.maxWallTime)
            && Member(m, KPools, StrArr(s.pools))
            && (if s.authority.Some? then Member(m, KAuthority, s.authority.value) else KAuthority !in m)
            && (if s.runtimePins.Some? then Member(m, KRuntimePins, s.runtimePins.value) else KRuntimePins !in m)
  {
  }

  /** A fingerprint is of the document that names host, root, key, intent and payload, with the
      snapshot's authority and pins where it has them, and nothing else. */
  lemma FingerprintMeans(r: Record, a: Attempt)
    ensures TransferFingerprint(r, a).Text? && TransferFingerprint(r, a).doc.JObj?
    ensures var m := TransferFingerprint(r, a).doc.members;
            && Member(m, KSchema, JWord(WTransferSchema)) && Member(m, KTargetHost, JStr(a.targetHost))
            && Member(m, KTargetStateRoot, JStr(a.targetRoot)) && Member(m, KIdempotencyKey, JStr(a.key))
            && Member(m, KIntentDigest, JDigest(Text(IntentDoc(r.intent))))
            && Member(m, KPayloadSha256, JDigest(r.payload))
            && (forall n :: n in {KAuthority, KRuntimePins} ==>
                  if n in a.snapshot then Member(m, n, a.snapshot[n]) else n !in m)
            && m.Keys <= {KSchema, KTargetHost, KTargetStateRoot, KIdempotencyKey, KIntentDigest, KPayloadSha256,
                          KAuthority, KRuntimePins}
  {
    hide IntentDoc;
  }
}
