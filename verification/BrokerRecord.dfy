/** Broker records and their transitions (src/vq/broker_store.py).

    A record changes only through the functions below, each the body of one
    compare-and-swap. `Consistent` is the check every publication repeats;
    `Grounded` is the stronger statement that every transition keeps. */
module BrokerRecord {
  import opened Common
  import opened JsonModel

  const ATTEMPTS_MAX := 1000
  const DIAGNOSTICS_MAX := 50
  const DIAGNOSTIC_MAX_CHARS := 2000
  const JOB_ID_MAX_LEN := 160
  const FENCED_RETURN_PREFIX := "fenced on target: "

  type Time = real

  datatype State = Held | Reserved | Transferring | Placed | Returned | Cancelled

  datatype Intent = Intent(
    command: seq<string>, cpus: int, memMb: int, wallTime: Option<int>, priority: int,
    autoResume: bool, retry: int, jobName: Option<string>, program: Option<string>,
    expectedSha: Option<string>, tags: seq<string>, cleanWorkdir: bool,
    rerunUntil: Option<string>, rerunMax: int, pool: Option<string>,
    runtimeSeconds: Option<(Number, Number)>)

  datatype Charge = Charge(cpus: int, memMb: int, jobSlots: int)

  datatype Attempt = Attempt(
    number: int, phase: State, targetHost: string, targetRoot: string, reservationId: string,
    charge: Charge, decidedAt: Time, snapshot: Members, ranking: seq<Json>, blockers: Members,
    key: string, fingerprint: Option<Preimage>, transferStartedAt: Option<Time>,
    targetJobId: Option<string>, acceptedAt: Option<Time>, returnedAt: Option<Time>,
    returnReason: Option<string>, chargeReleasedAt: Option<Time>, diagnostics: seq<string>)

  datatype Cancellation = Cancellation(requestedAt: Time, reason: string, completedAt: Option<Time>)

  type Blockers = seq<(string, string)>

  datatype Record = Record(
    jobId: string, revision: int, state: State, createdAt: Time, updatedAt: Time, intent: Intent,
    payload: Preimage, payloadSize: int, attempts: seq<Attempt>,
    cancellation: Option<Cancellation>, heldBlockers: Blockers)
  {
    function WithCurrent(a: Attempt): Record
      requires attempts != []
    {
      this.(attempts := attempts[..|attempts| - 1] + [a])
    }
  }

  // --------------------------------------------------------------------
  // Texts

  predicate StartsWith(s: string, prefix: string) {
    |prefix| <= |s| && s[..|prefix|] == prefix
  }

  predicate IsHexDigit(c: char) {
    '0' <= c <= '9' || 'a' <= c <= 'f'
  }

  predicate BrokerJobIdOk(s: string) {
    |s| == 14 && s[..2] == "b-" && forall i :: 2 <= i < 14 ==> IsHexDigit(s[i])
  }

  predicate TargetJobIdOk(s: string) {
    && 1 <= |s| <= JOB_ID_MAX_LEN && s != "." && s != ".."
    && forall i :: 0 <= i < |s| ==>
         var c := s[i];
         'A' <= c <= 'Z' || 'a' <= c <= 'z' || '0' <= c <= '9' || c == '.' || c == '_' || c == '-'
  }

  predicate Blank(s: string) {
    forall i :: 0 <= i < |s| ==> s[i] in {' ', '\t', '\n', '\r'}
  }

  /** A reason or diagnostic: refused when blank, cut to its maximum length. */
  function ParseReason(s: string): (r: Option<string>)
    ensures r.Some? ==> 0 < |r.value| <= DIAGNOSTIC_MAX_CHARS && r.value <= s
  {
    if Blank(s) then None
    else Some(if |s| <= DIAGNOSTIC_MAX_CHARS then s else s[..DIAGNOSTIC_MAX_CHARS])
  }

  // --------------------------------------------------------------------
  // Documents that digests are taken of

  function OptInt(o: Option<int>): Json {
    if o.Some? then JNum(Whole(o.value)) else JNull
  }

  function OptStr(o: Option<string>): Json {
    if o.Some? then JStr(o.value) else JNull
  }

  function StrArr(s: seq<string>): (j: Json)
    ensures j.JArr? && |j.items| == |s|
    ensures forall i :: 0 <= i < |s| ==> j.items[i] == JStr(s[i])
  {
    JArr(seq(|s|, i requires 0 <= i < |s| => JStr(s[i])))
  }

  // An intent is written flat too: what to run, how it is labelled, its estimate if it has one.

  function IntentRun(t: Intent): Members {
    map[KCommand := StrArr(t.command), KCpus := JNum(Whole(t.cpus)), KMemMb := JNum(Whole(t.memMb)),
        KWallTimeSeconds := OptInt(t.wallTime), KPriority := JNum(Whole(t.priority)),
        KAutoResume := JBool(t.autoResume), KRetry := JNum(Whole(t.retry))]
  }

  function IntentLabels(t: Intent): Members {
    map[KJobName := OptStr(t.jobName), KProgram := OptStr(t.program),
        KExpectedSha := OptStr(t.expectedSha), KTags := StrArr(t.tags),
        KCleanWorkdir := JBool(t.cleanWorkdir), KRerunUntil := OptStr(t.rerunUntil),
        KRerunMax := JNum(Whole(t.rerunMax)), KPool := OptStr(t.pool)]
  }

  function IntentEstimate(t: Intent): Members {
    if t.runtimeSeconds.None? then map[]
    else map[KRuntimeSeconds := JArr([JNum(t.runtimeSeconds.value.0), JNum(t.runtimeSeconds.value.1)])]
  }

  function IntentDoc(t: Intent): Json {
    JObj(IntentRun(t) + IntentLabels(t) + IntentEstimate(t))
  }

  function IntentDigest(t: Intent): Preimage {
    Text(IntentDoc(t))
  }

  function FingerprintDoc(host: string, root: string, key: string, intent: Preimage,
                          payload: Preimage, snapshot: Members): Members {
    var base: Members := map[
      KSchema := JWord(WTransferSchema), KTargetHost := JStr(host), KTargetStateRoot := JStr(root),
      KIdempotencyKey := JStr(key), KIntentDigest := JDigest(intent),
      KPayloadSha256 := JDigest(payload)];
    var withAuthority :=
      if KAuthority in snapshot then base[KAuthority := snapshot[KAuthority]] else base;
    if KRuntimePins in snapshot then withAuthority[KRuntimePins := snapshot[KRuntimePins]]
    else withAuthority
  }

  lemma FingerprintFields(host: string, root: string, key: string, intent: Preimage,
                          payload: Preimage, snapshot: Members)
    ensures var m := FingerprintDoc(host, root, key, intent, payload, snapshot);
            && {KTargetHost, KTargetStateRoot, KIdempotencyKey, KIntentDigest, KPayloadSha256} <= m.Keys
            && m[KTargetHost] == JStr(host) && m[KTargetStateRoot] == JStr(root)
            && m[KIdempotencyKey] == JStr(key) && m[KIntentDigest] == JDigest(intent)
            && m[KPayloadSha256] == JDigest(payload)
  {
  }

  /** The identity of one keyed submission. */
  function TransferFingerprint(r: Record, a: Attempt): Preimage {
    Fingerprint(IntentDigest(r.intent), r.payload, a)
  }

  function Fingerprint(intent: Preimage, payload: Preimage, a: Attempt): Preimage {
    Text(JObj(FingerprintDoc(a.targetHost, a.targetRoot, a.key, intent, payload, a.snapshot)))
  }

  /** A fingerprint names one authority, one key, one intent and one payload. */
  lemma FingerprintBinds(r: Record, a: Attempt, r': Record, a': Attempt)
    requires TransferFingerprint(r, a) == TransferFingerprint(r', a')
    ensures a.targetHost == a'.targetHost && a.targetRoot == a'.targetRoot && a.key == a'.key
    ensures IntentDigest(r.intent) == IntentDigest(r'.intent) && r.payload == r'.payload
  {
    FingerprintFields(a.targetHost, a.targetRoot, a.key, IntentDigest(r.intent), r.payload, a.snapshot);
    FingerprintFields(a'.targetHost, a'.targetRoot, a'.key, IntentDigest(r'.intent), r'.payload, a'.snapshot);
  }

  // --------------------------------------------------------------------
  // Capacity snapshots, as a reservation records them

  datatype Snapshot = Snapshot(
    host: string, observedAt: Time, freeCpus: Option<int>, freeMemMb: Option<int>,
    freeJobs: Option<int>, reachable: bool, daemonHealthy: bool, rootAgreement: bool,
    admissionOpen: bool, queueReady: bool, isScheduler: bool, schedulerAdmission: bool,
    maxRequestCpus: Option<int>, authority: Option<Json>, runtimePins: Option<Json>,
    pools: seq<string>, maxWallTime: Option<int>, pendingCpus: int, idleSeconds: Option<int>)

  function SnapshotDoc(s: Snapshot): Members {
    var base: Members := map[
      KHost := JStr(s.host), KObservedAt := JNum(Frac(s.observedAt)), KFreeCpus := OptInt(s.freeCpus),
      KFreeMemMb := OptInt(s.freeMemMb), KFreeJobs := OptInt(s.freeJobs),
      KPendingCpus := JNum(Whole(s.pendingCpus)), KIdleSeconds := OptInt(s.idleSeconds),
      KPools := StrArr(s.pools), KMaxWallTime := OptInt(s.maxWallTime)];
    var withAuthority :=
      if s.authority.Some? then base[KAuthority := s.authority.value] else base;
    if s.runtimePins.Some? then withAuthority[KRuntimePins := s.runtimePins.value] else withAuthority
  }

  // --------------------------------------------------------------------
  // Consistency

  function ExpectedPhases(s: State): set<Option<State>> {
    match s
    case Held => {None, Some(Returned)}
    case Cancelled => {None, Some(Returned)}
    case Reserved => {Some(Reserved)}
    case Transferring => {Some(Transferring)}
    case Placed => {Some(Placed)}
    case Returned => {Some(Returned)}
  }

  predicate Started(a: Attempt) {
    a.transferStartedAt.Some? || a.fingerprint.Some?
  }

  predicate FencedReason(reason: Option<string>) {
    reason.Some? && StartsWith(reason.value, FENCED_RETURN_PREFIX)
  }

  predicate AttemptConsistent(a: Attempt) {
    && (a.phase in {Transferring, Placed} ==> a.transferStartedAt.Some? && a.fingerprint.Some?)
    && (a.phase == Returned && Started(a) ==> FencedReason(a.returnReason))
    && (a.phase == Placed <==> a.targetJobId.Some?)
    && (a.phase == Returned <==> a.returnedAt.Some?)
    && (a.phase in {Reserved, Transferring} ==> a.chargeReleasedAt.None?)
  }

  /** The check `_publish` repeats before every write, clause by clause. */
  predicate Consistent(r: Record) {
    var last := |r.attempts| - 1;
    && (r.heldBlockers != [] ==> r.state in {Held, Cancelled})
    && (forall i :: 0 <= i < last ==>
          r.attempts[i].phase == Returned && r.attempts[i].chargeReleasedAt.Some?)
    && (forall i :: 0 <= i <= last ==> AttemptConsistent(r.attempts[i]))
    && (if last < 0 then None else Some(r.attempts[last].phase)) in ExpectedPhases(r.state)
    && (r.state in {Held, Cancelled} && 0 <= last ==> r.attempts[last].chargeReleasedAt.Some?)
    && (r.state == Cancelled ==> r.cancellation.Some? && r.cancellation.value.completedAt.Some?)
    && (r.state != Cancelled && r.cancellation.Some? ==> r.cancellation.value.completedAt.None?)
  }

  predicate IntentOk(t: Intent) {
    && t.command != [] && t.command[0] != "" && t.command[0][0] != '-' && '\0' !in t.command[0]
    && t.cpus > 0 && t.memMb > 0
    && (t.wallTime.Some? ==> t.wallTime.value > 0)
    && t.pool != Some("")
    && (t.runtimeSeconds.Some? ==>
          0.0 <= t.runtimeSeconds.value.0.AsReal() <= t.runtimeSeconds.value.1.AsReal())
  }

  predicate TimeOk(o: Option<Time>) {
    o.Some? ==> o.value >= 0.0
  }

  predicate BlockersOk(b: Blockers) {
    forall i :: 0 <= i < |b| ==> b[i].0 != "" && b[i].1 != ""
  }

  /** What is read of one attempt, beyond `AttemptConsistent`. */
  ghost predicate AttemptReadable(jobId: string, a: Attempt, number: int) {
    && a.number == number
    && a.phase in {Reserved, Transferring, Placed, Returned}
    && a.key == jobId
    && a.targetHost != "" && a.targetRoot != "" && a.reservationId != ""
    && a.charge.cpus > 0 && a.charge.memMb > 0 && a.charge.jobSlots > 0
    && a.decidedAt >= 0.0
    && TimeOk(a.transferStartedAt) && TimeOk(a.acceptedAt) && TimeOk(a.returnedAt)
    && TimeOk(a.chargeReleasedAt)
    && a.returnReason != Some("")
    && (a.targetJobId.Some? ==> TargetJobIdOk(a.targetJobId.value))
  }

  /** What one attempt goes on showing: a reserved one has no transfer evidence, a returned one no
      outstanding charge. */
  ghost predicate AttemptGrounded(jobId: string, a: Attempt, number: int) {
    && AttemptReadable(jobId, a, number)
    && (a.phase == Reserved ==> !Started(a))
    && (a.phase == Returned ==> a.chargeReleasedAt.Some?)
    && (a.acceptedAt.Some? <==> a.phase == Placed)
    && (a.fingerprint.Some? <==> a.transferStartedAt.Some?)
  }

  ghost predicate AttemptsReadable(jobId: string, attempts: seq<Attempt>) {
    forall i :: 0 <= i < |attempts| ==> AttemptReadable(jobId, attempts[i], i + 1)
  }

  /** What is read of a record: no store would hand out another. */
  ghost predicate Readable(r: Record) {
    && Consistent(r) && BrokerJobIdOk(r.jobId)
    && r.revision >= 1 && r.createdAt >= 0.0 && r.updatedAt >= 0.0
    && IntentOk(r.intent) && r.payloadSize >= 0
    && |r.attempts| <= ATTEMPTS_MAX && AttemptsReadable(r.jobId, r.attempts)
    && (r.cancellation.Some? ==>
          && r.cancellation.value.requestedAt >= 0.0 && r.cancellation.value.reason != ""
          && TimeOk(r.cancellation.value.completedAt))
    && BlockersOk(r.heldBlockers)
  }

  ghost predicate AttemptsGrounded(jobId: string, attempts: seq<Attempt>) {
    forall i :: 0 <= i < |attempts| ==>
      AttemptConsistent(attempts[i]) && AttemptGrounded(jobId, attempts[i], i + 1)
  }

  /** The inductive strengthening of `Consistent`. */
  ghost predicate Grounded(r: Record) {
    && Consistent(r)
    && BrokerJobIdOk(r.jobId)
    && r.revision >= 1 && r.createdAt >= 0.0 && r.updatedAt >= 0.0
    && IntentOk(r.intent) && r.payload.Bytes? && r.payloadSize >= 0
    && |r.attempts| <= ATTEMPTS_MAX
    && AttemptsGrounded(r.jobId, r.attempts)
    && (r.cancellation.Some? ==>
          && r.cancellation.value.requestedAt >= 0.0 && r.cancellation.value.reason != ""
          && TimeOk(r.cancellation.value.completedAt))
    && BlockersOk(r.heldBlockers)
  }

  lemma GroundedIsReadable(r: Record)
    requires Grounded(r)
    ensures Readable(r)
  {
    hide Consistent, IntentOk, BrokerJobIdOk, AttemptReadable;
  }

  // --------------------------------------------------------------------
  // Transitions. None means the transition was refused and nothing is written.

  datatype Op =
    | RecordHeldBlockers(found: Blockers)
    | Reserve(host: Option<string>, snapshot: Snapshot, root: string, ranking: seq<Json>, found: Blockers)
    | ReleaseReservation(reason: string)
    | FenceTransfer(proof: string)
    | ResumeHolding
    | BeginTransfer
    | RecordDiagnostic(message: string)
    | RecordPlaced(fingerprint: Preimage, targetJobId: string)
    | SettleCharge
    | RequestCancel(reason: string)

  function NewRecord(jobId: string, intent: Intent, payload: Preimage, size: nat, now: Time): Record {
    Record(jobId, 1, Held, now, now, intent, payload, size, [], None, [])
  }

  /** Later entries win, as when a list of pairs becomes a dictionary. */
  function Dict(b: Blockers): (m: map<string, string>)
    ensures forall h :: h in m <==> exists i :: 0 <= i < |b| && b[i].0 == h
  {
    if b == [] then map[] else Dict(b[..|b| - 1])[b[|b| - 1].0 := b[|b| - 1].1]
  }

  function TextMembers(d: map<string, string>): Members {
    map h | h in d :: Named(h) := JStr(d[h])
  }

  function DictMembers(b: Blockers): Members {
    TextMembers(Dict(b))
  }

  function NewAttempt(r: Record, op: Op, now: Time): Attempt
    requires op.Reserve?
  {
    var n := |r.attempts| + 1;
    Attempt(n, Reserved, op.snapshot.host, op.root, ReservationId(r.jobId, n),
            Charge(r.intent.cpus, r.intent.memMb, 1), now, SnapshotDoc(op.snapshot), op.ranking,
            DictMembers(op.found), r.jobId, None, None, None, None, None, None, None, [])
  }

  function ReservationId(jobId: string, n: nat): (s: string)
    ensures s != ""
  {
    jobId + "." + Decimal(n)
  }

  function Return(r: Record, reason: string, now: Time): Record
    requires r.attempts != []
  {
    var a := r.attempts[|r.attempts| - 1].(phase := Returned, returnedAt := Some(now),
      returnReason := Some(reason), chargeReleasedAt := Some(now));
    r.WithCurrent(a).(state := Returned)
  }

  function LastOf(s: seq<string>, n: nat): seq<string> {
    if |s| <= n then s else s[|s| - n..]
  }

  function RecordHeldBlockersChange(r: Record, found: Blockers): Option<Record> {
    if r.state != Held || r.cancellation.Some? || !BlockersOk(found) then None
    else Some(r.(heldBlockers := found))
  }

  function ReserveChange(r: Record, op: Op, now: Time): Option<Record>
    requires op.Reserve?
  {
    if op.host != Some(op.snapshot.host) || op.snapshot.host == "" || !StartsWith(op.root, "/") then None
    else if r.state != Held || r.cancellation.Some? || |r.attempts| >= ATTEMPTS_MAX then None
    else Some(r.(state := Reserved, attempts := r.attempts + [NewAttempt(r, op, now)],
                 heldBlockers := []))
  }

  function ReleaseReservationChange(r: Record, reason: string, now: Time): Option<Record> {
    var text :- ParseReason(reason);
    if r.state != Reserved || r.attempts == [] then None else Some(Return(r, text, now))
  }

  function FenceTransferChange(r: Record, proof: string, now: Time): Option<Record> {
    var text :- ParseReason(proof);
    if r.state != Transferring || r.attempts == [] then None
    else Some(Return(r, FENCED_RETURN_PREFIX + text, now))
  }

  function ResumeHoldingChange(r: Record, now: Time): Option<Record> {
    if r.state != Returned then None
    else if r.cancellation.Some? then
      Some(r.(state := Cancelled,
              cancellation := Some(r.cancellation.value.(completedAt := Some(now)))))
    else Some(r.(state := Held))
  }

  function BeginTransferChange(r: Record, now: Time): Option<Record> {
    if r.state != Reserved || r.cancellation.Some? || r.attempts == [] then None
    else
      var a := r.attempts[|r.attempts| - 1];
      Some(r.WithCurrent(a.(phase := Transferring, transferStartedAt := Some(now),
                            fingerprint := Some(TransferFingerprint(r, a))))
           .(state := Transferring))
  }

  function RecordDiagnosticChange(r: Record, message: string): Option<Record> {
    var text :- ParseReason(message);
    if r.state != Transferring || r.attempts == [] then None
    else
      var a := r.attempts[|r.attempts| - 1];
      Some(r.WithCurrent(a.(diagnostics := LastOf(a.diagnostics + [text], DIAGNOSTICS_MAX))))
  }

  function RecordPlacedChange(r: Record, fingerprint: Preimage, targetJobId: string, now: Time): Option<Record> {
    if !TargetJobIdOk(targetJobId) || r.state != Transferring || r.attempts == [] then None
    else
      var a := r.attempts[|r.attempts| - 1];
      if Some(fingerprint) != a.fingerprint then None
      else Some(r.WithCurrent(a.(phase := Placed, targetJobId := Some(targetJobId),
                                 acceptedAt := Some(now))).(state := Placed))
  }

  function SettleChargeChange(r: Record, now: Time): Option<Record> {
    if r.state != Placed || r.attempts == [] then None
    else
      var a := r.attempts[|r.attempts| - 1];
      if a.chargeReleasedAt.Some? then None
      else Some(r.WithCurrent(a.(chargeReleasedAt := Some(now))))
  }

  function RequestCancelChange(r: Record, reason: string, now: Time): Option<Record> {
    var text :- ParseReason(reason);
    if r.state == Cancelled || r.cancellation.Some? then None
    else if r.state == Held then
      Some(r.(state := Cancelled, cancellation := Some(Cancellation(now, text, Some(now)))))
    else Some(r.(cancellation := Some(Cancellation(now, text, None))))
  }

  /** The body of a transition, before the store stamps revision and time. */
  function Change(r: Record, op: Op, now: Time): Option<Record> {
    match op
    case RecordHeldBlockers(found) => RecordHeldBlockersChange(r, found)
    case Reserve(_, _, _, _, _) => ReserveChange(r, op, now)
    case ReleaseReservation(reason) => ReleaseReservationChange(r, reason, now)
    case FenceTransfer(proof) => FenceTransferChange(r, proof, now)
    case ResumeHolding => ResumeHoldingChange(r, now)
    case BeginTransfer => BeginTransferChange(r, now)
    case RecordDiagnostic(message) => RecordDiagnosticChange(r, message)
    case RecordPlaced(fingerprint, targetJobId) => RecordPlacedChange(r, fingerprint, targetJobId, now)
    case SettleCharge => SettleChargeChange(r, now)
    case RequestCancel(reason) => RequestCancelChange(r, reason, now)
  }

  /** One published write: the change, the next revision, the time. */
  function Next(r: Record, op: Op, now: Time): Option<Record> {
    var changed :- Change(r, op, now);
    Some(changed.(revision := r.revision + 1, updatedAt := now))
  }

  // --------------------------------------------------------------------
  // What every transition keeps

  /** Same job, and the first `n` attempts are the same. */
  ghost predicate SameHistory(r: Record, r': Record, n: nat) {
    && r'.jobId == r.jobId && r'.intent == r.intent && r'.createdAt == r.createdAt
    && r'.payload == r.payload && r'.payloadSize == r.payloadSize
    && n <= |r.attempts| && n <= |r'.attempts|
    && forall i :: 0 <= i < n ==> r'.attempts[i] == r.attempts[i]
  }

  /** An attempt is settled history once it is returned: no transition touches it again. */
  ghost predicate HistoryKept(r: Record, r': Record) {
    && |r.attempts| <= |r'.attempts| <= |r.attempts| + 1
    && SameHistory(r, r', if r.attempts == [] || |r.attempts| < |r'.attempts| then |r.attempts|
                          else |r.attempts| - 1)
    && (forall i :: 0 <= i < |r.attempts| && r.attempts[i].phase == Returned ==>
          r'.attempts[i] == r.attempts[i])
  }

  lemma LastAttempt(r: Record)
    requires Grounded(r) && r.state in {Reserved, Transferring, Placed, Returned}
    ensures r.attempts != [] && r.attempts[|r.attempts| - 1].phase == r.state && r.heldBlockers == []
    ensures r.state == Returned ==> r.attempts[|r.attempts| - 1].chargeReleasedAt.Some?
  {
  }

  /** Appending or rewriting the newest attempt: the earlier ones stand as they are. */
  lemma ExtendGrounded(jobId: string, attempts: seq<Attempt>, n: nat, a: Attempt)
    requires AttemptsGrounded(jobId, attempts) && n <= |attempts|
    requires AttemptConsistent(a) && AttemptGrounded(jobId, a, n + 1)
    ensures AttemptsGrounded(jobId, attempts[..n] + [a])
  {
  }

  /** What a transition must leave behind. */
  ghost predicate Keeps(r: Record, r': Record) {
    Grounded(r') && HistoryKept(r, r')
  }

  lemma IntentSizes(t: Intent)
    ensures IntentOk(t) ==> t.cpus > 0 && t.memMb > 0
  {
  }

  lemma ReserveKeeps(r: Record, op: Op, now: Time)
    requires Grounded(r) && now >= 0.0 && op.Reserve? && ReserveChange(r, op, now).Some?
    ensures Keeps(r, ReserveChange(r, op, now).value)
  {
    hide IntentOk, BrokerJobIdOk, SnapshotDoc, DictMembers, ReservationId;
    var n := |r.attempts|;
    assert r.attempts[..n] == r.attempts;
    assert IntentOk(r.intent) ==> r.intent.cpus > 0 && r.intent.memMb > 0 by { IntentSizes(r.intent); }
    ExtendGrounded(r.jobId, r.attempts, n, NewAttempt(r, op, now));
  }

  /** Rewriting the newest, unreturned attempt, when it and the new state agree. */
  lemma RewriteKeeps(r: Record, a: Attempt, state: State)
    requires Grounded(r) && r.state in {Reserved, Transferring, Placed}
    requires state in {Transferring, Placed, Returned} && a.phase == state
    requires AttemptConsistent(a) && AttemptGrounded(r.jobId, a, |r.attempts|)
    ensures r.attempts != [] && Keeps(r, r.WithCurrent(a).(state := state))
  {
    hide IntentOk, BrokerJobIdOk, BlockersOk, AttemptGrounded;
    LastAttempt(r);
    ExtendGrounded(r.jobId, r.attempts, |r.attempts| - 1, a);
  }

  /** The newest attempt of an open record, for the lemmas that rewrite it. */
  lemma OpenAttempt(r: Record) returns (a: Attempt)
    requires Grounded(r) && r.state in {Reserved, Transferring, Placed}
    ensures r.attempts != [] && a == r.attempts[|r.attempts| - 1] && a.phase == r.state
    ensures AttemptConsistent(a) && AttemptGrounded(r.jobId, a, |r.attempts|)
  {
    LastAttempt(r);
    a := r.attempts[|r.attempts| - 1];
  }

  lemma FencedReasonShows(text: string)
    ensures FencedReason(Some(FENCED_RETURN_PREFIX + text)) && FENCED_RETURN_PREFIX + text != ""
  {
    assert (FENCED_RETURN_PREFIX + text)[..|FENCED_RETURN_PREFIX|] == FENCED_RETURN_PREFIX;
  }

  lemma ReturnKeeps(r: Record, reason: string, now: Time)
    requires Grounded(r) && now >= 0.0 && r.state in {Reserved, Transferring} && reason != ""
    requires r.state == Transferring ==> FencedReason(Some(reason))
    ensures r.attempts != [] && Keeps(r, Return(r, reason, now))
  {
    hide Grounded, Keeps, TargetJobIdOk, TransferFingerprint, ParseReason, FencedReason;
    var a := OpenAttempt(r);
    RewriteKeeps(r, a.(phase := Returned, returnedAt := Some(now), returnReason := Some(reason),
                       chargeReleasedAt := Some(now)), Returned);
  }

  lemma BeginKeeps(r: Record, now: Time)
    requires Grounded(r) && now >= 0.0 && BeginTransferChange(r, now).Some?
    ensures Keeps(r, BeginTransferChange(r, now).value)
  {
    hide Grounded, Keeps, TargetJobIdOk, TransferFingerprint, ParseReason, FencedReason;
    var a := OpenAttempt(r);
    RewriteKeeps(r, a.(phase := Transferring, transferStartedAt := Some(now),
                       fingerprint := Some(TransferFingerprint(r, a))), Transferring);
  }

  lemma DiagnosticKeeps(r: Record, message: string)
    requires Grounded(r) && RecordDiagnosticChange(r, message).Some?
    ensures Keeps(r, RecordDiagnosticChange(r, message).value)
  {
    hide Grounded, Keeps, TargetJobIdOk, TransferFingerprint, ParseReason, FencedReason;
    var a := OpenAttempt(r);
    var text := ParseReason(message).value;
    RewriteKeeps(r, a.(diagnostics := LastOf(a.diagnostics + [text], DIAGNOSTICS_MAX)), Transferring);
  }

  lemma PlacedKeeps(r: Record, fingerprint: Preimage, id: string, now: Time)
    requires Grounded(r) && now >= 0.0 && RecordPlacedChange(r, fingerprint, id, now).Some?
    ensures Keeps(r, RecordPlacedChange(r, fingerprint, id, now).value)
  {
    hide Grounded, Keeps, TargetJobIdOk, TransferFingerprint, ParseReason, FencedReason;
    var a := OpenAttempt(r);
    RewriteKeeps(r, a.(phase := Placed, targetJobId := Some(id), acceptedAt := Some(now)), Placed);
  }

  lemma SettleKeeps(r: Record, now: Time)
    requires Grounded(r) && now >= 0.0 && SettleChargeChange(r, now).Some?
    ensures Keeps(r, SettleChargeChange(r, now).value)
  {
    hide Grounded, Keeps, TargetJobIdOk, TransferFingerprint, ParseReason, FencedReason;
    var a := OpenAttempt(r);
    RewriteKeeps(r, a.(chargeReleasedAt := Some(now)), Placed);
  }

  lemma HeldBlockersKeeps(r: Record, found: Blockers)
    requires Grounded(r) && RecordHeldBlockersChange(r, found).Some?
    ensures Keeps(r, RecordHeldBlockersChange(r, found).value)
  {
    hide IntentOk, BrokerJobIdOk, AttemptConsistent, AttemptGrounded;
  }

  lemma ResumeKeeps(r: Record, now: Time)
    requires Grounded(r) && now >= 0.0 && ResumeHoldingChange(r, now).Some?
    ensures Keeps(r, ResumeHoldingChange(r, now).value)
  {
    hide IntentOk, BrokerJobIdOk, AttemptConsistent, AttemptGrounded, BlockersOk;
    LastAttempt(r);
  }

  lemma CancelKeeps(r: Record, reason: string, now: Time)
    requires Grounded(r) && now >= 0.0 && RequestCancelChange(r, reason, now).Some?
    ensures Keeps(r, RequestCancelChange(r, reason, now).value)
  {
    hide IntentOk, BrokerJobIdOk, AttemptConsistent, AttemptGrounded, BlockersOk, ParseReason;
  }

  lemma ChangeKeeps(r: Record, op: Op, now: Time)
    requires Grounded(r) && now >= 0.0 && Change(r, op, now).Some?
    ensures Keeps(r, Change(r, op, now).value)
  {
    hide Grounded, Keeps, ReserveChange, BeginTransferChange, RecordDiagnosticChange, RecordPlacedChange;
    hide SettleChargeChange, RecordHeldBlockersChange, ResumeHoldingChange, RequestCancelChange, Return;
    hide FencedReason, ParseReason;
    match op {
      case Reserve(_, _, _, _, _) => ReserveKeeps(r, op, now);
      case ReleaseReservation(reason) => ReturnKeeps(r, ParseReason(reason).value, now);
      case FenceTransfer(proof) =>
        FencedReasonShows(ParseReason(proof).value);
        ReturnKeeps(r, FENCED_RETURN_PREFIX + ParseReason(proof).value, now);
      case BeginTransfer => BeginKeeps(r, now);
      case RecordDiagnostic(message) => DiagnosticKeeps(r, message);
      case RecordPlaced(fingerprint, id) => PlacedKeeps(r, fingerprint, id, now);
      case SettleCharge => SettleKeeps(r, now);
      case RecordHeldBlockers(found) => HeldBlockersKeeps(r, found);
      case ResumeHolding => ResumeKeeps(r, now);
      case RequestCancel(reason) => CancelKeeps(r, reason, now);
    }
  }

  /** Every transition that is not refused leaves a record that publication accepts, at the
      next revision, with its identity and its settled attempts untouched. */
  lemma NextKeepsGrounded(r: Record, op: Op, now: Time)
    requires Grounded(r) && now >= 0.0 && Next(r, op, now).Some?
    ensures Grounded(Next(r, op, now).value)
    ensures Next(r, op, now).value.revision == r.revision + 1
    ensures HistoryKept(r, Next(r, op, now).value)
  {
    hide Change, IntentOk, BrokerJobIdOk, BlockersOk, AttemptGrounded, AttemptConsistent, AttemptsGrounded;
    ChangeKeeps(r, op, now);
  }

  /** How one attempt may move in one transition, and by which transition. */
  ghost predicate AttemptMoves(a: Attempt, a': Attempt, op: Op, now: Time) {
    && a'.targetHost == a.targetHost && a'.targetRoot == a.targetRoot && a'.key == a.key
    && a'.snapshot == a.snapshot && a'.charge == a.charge && a'.number == a.number
    && (a.fingerprint.Some? || !op.BeginTransfer? ==> a'.fingerprint == a.fingerprint)
    && (|| (a'.phase == a.phase && a'.fingerprint == a.fingerprint && a'.targetJobId == a.targetJobId
            && a'.acceptedAt == a.acceptedAt && a'.chargeReleasedAt == a.chargeReleasedAt)
        || (op.BeginTransfer? && a.phase == Reserved && a'.phase == Transferring && a'.chargeReleasedAt.None?)
        || (op.ReleaseReservation? && a.phase == Reserved && a'.phase == Returned && a'.fingerprint.None?)
        || (op.FenceTransfer? && a.phase == Transferring && a'.phase == Returned)
        || (op.RecordPlaced? && a.phase == Transferring && a'.phase == Placed
            && a.fingerprint == Some(op.fingerprint) && a'.targetJobId == Some(op.targetJobId)
            && a'.acceptedAt == Some(now) && a'.chargeReleasedAt.None?)
        || (op.SettleCharge? && a.phase == Placed && a'.phase == Placed && a'.targetJobId == a.targetJobId
            && a'.acceptedAt == a.acceptedAt))
  }

  /** Every attempt moves as above, and only a reservation adds one. */
  ghost predicate RecordMoves(r: Record, r': Record, op: Op, now: Time) {
    && |r.attempts| <= |r'.attempts|
    && (forall i :: 0 <= i < |r.attempts| ==> AttemptMoves(r.attempts[i], r'.attempts[i], op, now))
    && (|r.attempts| < |r'.attempts| ==>
          && op.Reserve? && r.state == Held && r.cancellation.None?
          && |r'.attempts| == |r.attempts| + 1
          && r'.attempts[|r.attempts|].phase == Reserved && !Started(r'.attempts[|r.attempts|])
          && r'.attempts[|r.attempts|].chargeReleasedAt.None?
          && r'.attempts[|r.attempts|].targetHost == op.snapshot.host
          && r'.attempts[|r.attempts|].charge == Charge(r.intent.cpus, r.intent.memMb, 1))
    && r'.jobId == r.jobId && r'.intent == r.intent && r'.payload == r.payload
    && (r.cancellation.Some? ==> r'.cancellation.Some?)
    && (op.BeginTransfer? ==> r.cancellation.None?)
  }

  lemma StayPut(a: Attempt, op: Op, now: Time)
    ensures AttemptMoves(a, a, op, now)
  {
  }

  lemma RewriteMoves(attempts: seq<Attempt>, a': Attempt, op: Op, now: Time)
    requires attempts != [] && AttemptMoves(attempts[|attempts| - 1], a', op, now)
    ensures var moved := attempts[..|attempts| - 1] + [a'];
            forall i :: 0 <= i < |attempts| ==> AttemptMoves(attempts[i], moved[i], op, now)
  {
    hide AttemptMoves;
    var moved := attempts[..|attempts| - 1] + [a'];
    forall i | 0 <= i < |attempts| ensures AttemptMoves(attempts[i], moved[i], op, now) {
      if i < |attempts| - 1 { StayPut(attempts[i], op, now); }
    }
  }

  /** The transitions that rewrite the newest attempt. */
  lemma OpenMoves(r: Record, op: Op, now: Time)
    requires Grounded(r) && Change(r, op, now).Some?
    requires !op.Reserve? && !op.RecordHeldBlockers? && !op.ResumeHolding? && !op.RequestCancel?
    ensures RecordMoves(r, Change(r, op, now).value, op, now)
  {
    hide Grounded, TransferFingerprint, TargetJobIdOk, ParseReason;
    var a := OpenAttempt(r);
    var r' := Change(r, op, now).value;
    RewriteMoves(r.attempts, r'.attempts[|r.attempts| - 1], op, now);
  }

  /** The transitions that leave the attempts alone or append one. */
  lemma IdleMoves(r: Record, op: Op, now: Time)
    requires Grounded(r) && Change(r, op, now).Some?
    requires op.Reserve? || op.RecordHeldBlockers? || op.ResumeHolding? || op.RequestCancel?
    ensures RecordMoves(r, Change(r, op, now).value, op, now)
  {
    hide Grounded, SnapshotDoc, DictMembers, ReservationId, ParseReason, BlockersOk, StartsWith;
    var r' := Change(r, op, now).value;
    forall i | 0 <= i < |r.attempts| ensures AttemptMoves(r.attempts[i], r'.attempts[i], op, now) {
      StayPut(r.attempts[i], op, now);
    }
  }

  lemma NextMoves(r: Record, op: Op, now: Time)
    requires Grounded(r) && Next(r, op, now).Some?
    ensures RecordMoves(r, Next(r, op, now).value, op, now)
  {
    hide Grounded, Change, AttemptMoves;
    if op.Reserve? || op.RecordHeldBlockers? || op.ResumeHolding? || op.RequestCancel? {
      IdleMoves(r, op, now);
    } else {
      OpenMoves(r, op, now);
    }
  }

  /** A request that may have left is only ever given back by its target's fence: no other
      transition returns a started attempt, and the fence is what its reason names. */
  lemma OnlyFenceReturns(r: Record, op: Op, now: Time, i: nat)
    requires Grounded(r) && now >= 0.0 && Next(r, op, now).Some? && i < |r.attempts|
    requires r.attempts[i].phase in {Transferring, Placed}
    ensures i < |Next(r, op, now).value.attempts|
    ensures Next(r, op, now).value.attempts[i].phase == Returned ==>
      && op.FenceTransfer? && r.attempts[i].phase == Transferring
      && FencedReason(Next(r, op, now).value.attempts[i].returnReason)
  {
    hide Change, FencedReason, IntentOk, BrokerJobIdOk, BlockersOk, Keeps, HistoryKept;
    var r' := Next(r, op, now).value;
    NextMoves(r, op, now);
    NextKeepsGrounded(r, op, now);
    assert AttemptMoves(r.attempts[i], r'.attempts[i], op, now);
    assert AttemptConsistent(r.attempts[i]) && AttemptConsistent(r'.attempts[i]);
  }

  /** Recorded fingerprints are those of the attempts that carry them. */
  ghost predicate Fingerprinted(r: Record) {
    forall i :: 0 <= i < |r.attempts| && r.attempts[i].fingerprint.Some? ==>
      r.attempts[i].fingerprint.value == TransferFingerprint(r, r.attempts[i])
  }

  lemma FingerprintOfMoved(r: Record, r': Record, a: Attempt, a': Attempt)
    requires r'.intent == r.intent && r'.payload == r.payload
    requires a'.targetHost == a.targetHost && a'.targetRoot == a.targetRoot && a'.key == a.key
    requires a'.snapshot == a.snapshot
    ensures TransferFingerprint(r', a') == TransferFingerprint(r, a)
  {
  }

  lemma NextKeepsFingerprinted(r: Record, op: Op, now: Time)
    requires Grounded(r) && Fingerprinted(r) && Next(r, op, now).Some?
    ensures Fingerprinted(Next(r, op, now).value)
  {
    hide TransferFingerprint, Grounded;
    var r' := Next(r, op, now).value;
    NextMoves(r, op, now);
    forall i | 0 <= i < |r'.attempts| && r'.attempts[i].fingerprint.Some?
      ensures r'.attempts[i].fingerprint.value == TransferFingerprint(r', r'.attempts[i])
    {
      FingerprintOfMoved(r, r', r.attempts[i], r'.attempts[i]);
    }
  }

  /** Only the newest attempt of a record can still hold its charge. */
  lemma SingleCharge(r: Record, i: nat)
    requires Grounded(r) && i < |r.attempts| && r.attempts[i].chargeReleasedAt.None?
    ensures i == |r.attempts| - 1 && r.state in {Reserved, Transferring, Placed}
  {
    assert AttemptGrounded(r.jobId, r.attempts[i], i + 1);
  }

  // --------------------------------------------------------------------
  // Any interleaving of writers

  /** One writer's attempt: its view of the revision, the transition it asks for, its clock. */
  datatype Write = Write(expected: int, op: Op, now: Time)

  /** Compare-and-swap: a stale view or an illegal transition changes nothing. */
  function Swap(r: Record, w: Write): Record
    requires Grounded(r)
  {
    if w.expected != r.revision || w.now < 0.0 then r
    else
      var n := Next(r, w.op, w.now);
      if n.Some? then n.value else r
  }

  lemma SwapKeepsGrounded(r: Record, w: Write)
    requires Grounded(r)
    ensures Grounded(Swap(r, w))
  {
    if w.expected == r.revision && w.now >= 0.0 && Next(r, w.op, w.now).Some? {
      NextKeepsGrounded(r, w.op, w.now);
    }
  }

  ghost function SwapAll(r: Record, ws: seq<Write>): (r': Record)
    requires Grounded(r)
    ensures Grounded(r')
    decreases |ws|
  {
    if ws == [] then r
    else
      SwapKeepsGrounded(r, ws[0]);
      SwapAll(Swap(r, ws[0]), ws[1..])
  }

  /** How many of the writes were published. */
  ghost function Published(r: Record, ws: seq<Write>): nat
    requires Grounded(r)
    decreases |ws|
  {
    if ws == [] then 0
    else
      SwapKeepsGrounded(r, ws[0]);
      (if Swap(r, ws[0]) == r then 0 else 1) + Published(Swap(r, ws[0]), ws[1..])
  }

  lemma NewRecordGrounded(jobId: string, intent: Intent, payload: Preimage, size: nat, now: Time)
    requires BrokerJobIdOk(jobId) && IntentOk(intent) && payload.Bytes? && now >= 0.0
    ensures Grounded(NewRecord(jobId, intent, payload, size, now))
  {
  }

  lemma GroundedIsConsistent(r: Record)
    requires Grounded(r)
    ensures Consistent(r)
  {
  }

  /** From acceptance on, whatever the writers and however they interleave, the record stays
      publishable, counts its published writes and keeps every settled attempt. */
  lemma {:induction false} AnyInterleaving(r: Record, ws: seq<Write>)
    requires Grounded(r)
    ensures var r' := SwapAll(r, ws);
            && Consistent(r') && r'.revision == r.revision + Published(r, ws)
            && |r.attempts| <= |r'.attempts|
            && (forall i :: 0 <= i < |r.attempts| && r.attempts[i].phase == Returned ==>
                  r'.attempts[i] == r.attempts[i])
    decreases |ws|
  {
    hide Next, Grounded, AttemptConsistent, ExpectedPhases;
    GroundedIsConsistent(SwapAll(r, ws));
    if ws != [] {
      var w := ws[0];
      SwapKeepsGrounded(r, w);
      if w.expected == r.revision && w.now >= 0.0 && Next(r, w.op, w.now).Some? {
        NextKeepsGrounded(r, w.op, w.now);
      }
      AnyInterleaving(Swap(r, w), ws[1..]);
    }
  }
}
