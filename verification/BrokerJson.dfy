/** The stored form of a broker record and its parser (src/vq/broker_store.py).

    Anything a fresh process would refuse is refused here; what a transition publishes is
    read back as the same record, up to the order of the held blockers. */
module BrokerJson {
  import opened Common
  import opened JsonModel
  import opened BrokerRecord
  import StringOrder

  // --------------------------------------------------------------------
  // Writing

  function OptTime(o: Option<Time>): Json {
    if o.Some? then JNum(Frac(o.value)) else JNull
  }

  function StateText(s: State): Json {
    JWord(match s
          case Held => WHeld
          case Reserved => WReserved
          case Transferring => WTransferring
          case Placed => WPlaced
          case Returned => WReturned
          case Cancelled => WCancelled)
  }

  function ChargeDoc(c: Charge): Json {
    JObj(map[KCpus := JNum(Whole(c.cpus)), KMemMb := JNum(Whole(c.memMb)), KJobSlots := JNum(Whole(c.jobSlots))])
  }

  function FingerprintField(o: Option<Preimage>): Json {
    if o.Some? then JDigest(o.value) else JNull
  }

  // An attempt is written flat; its members come in four groups.

  function AttemptIdentity(a: Attempt): Members {
    map[KNumber := JNum(Whole(a.number)), KPhase := StateText(a.phase), KTargetHost := JStr(a.targetHost),
        KTargetStateRoot := JStr(a.targetRoot), KReservationId := JStr(a.reservationId),
        KIdempotencyKey := JStr(a.key)]
  }

  function AttemptDecision(a: Attempt): Members {
    map[KCharge := ChargeDoc(a.charge), KDecidedAt := JNum(Frac(a.decidedAt)), KSnapshot := JObj(a.snapshot),
        KRanking := JArr(a.ranking), KBlockers := JObj(a.blockers)]
  }

  function AttemptTransfer(a: Attempt): Members {
    map[KRequestFingerprint := FingerprintField(a.fingerprint),
        KTransferStartedAt := OptTime(a.transferStartedAt), KTargetJobId := OptStr(a.targetJobId),
        KAcceptedAt := OptTime(a.acceptedAt)]
  }

  function AttemptReturn(a: Attempt): Members {
    map[KReturnedAt := OptTime(a.returnedAt), KReturnReason := OptStr(a.returnReason),
        KChargeReleasedAt := OptTime(a.chargeReleasedAt), KDiagnostics := StrArr(a.diagnostics)]
  }

  function AttemptDoc(a: Attempt): Json {
    JObj(AttemptIdentity(a) + AttemptDecision(a) + AttemptTransfer(a) + AttemptReturn(a))
  }

  function CancellationDoc(o: Option<Cancellation>): Json {
    if o.None? then JNull
    else JObj(map[KRequestedAt := JNum(Frac(o.value.requestedAt)), KReason := JStr(o.value.reason),
                  KCompletedAt := OptTime(o.value.completedAt)])
  }

  function AttemptDocs(attempts: seq<Attempt>): (j: Json)
    ensures j.JArr? && |j.items| == |attempts|
    ensures forall i :: 0 <= i < |attempts| ==> j.items[i] == AttemptDoc(attempts[i])
  {
    JArr(seq(|attempts|, i requires 0 <= i < |attempts| => AttemptDoc(attempts[i])))
  }

  function RecordHead(r: Record): Members {
    map[KSchema := JWord(WRecordSchema), KBrokerJobId := JStr(r.jobId), KRevision := JNum(Whole(r.revision)),
        KState := StateText(r.state), KCreatedAt := JNum(Frac(r.createdAt)),
        KUpdatedAt := JNum(Frac(r.updatedAt))]
  }

  function PayloadDoc(r: Record): Json {
    JObj(map[KSha256 := JDigest(r.payload), KSize := JNum(Whole(r.payloadSize))])
  }

  function RecordBody(r: Record): Members {
    map[KIntent := IntentDoc(r.intent), KIntentDigest := JDigest(IntentDigest(r.intent)),
        KPayload := PayloadDoc(r), KAttempts := AttemptDocs(r.attempts),
        KCancellation := CancellationDoc(r.cancellation)]
  }

  function RecordBlockers(r: Record): Members {
    if r.heldBlockers == [] then map[] else map[KHeldBlockers := JObj(DictMembers(r.heldBlockers))]
  }

  function RecordDoc(r: Record): Json {
    JObj(RecordHead(r) + RecordBody(r) + RecordBlockers(r))
  }

  // --------------------------------------------------------------------
  // Parsing. None is a refusal: the stored text is corrupt.

  function ExactKeys(j: Json, keys: set<Name>): (r: Option<Members>)
    ensures r.Some? ==> j.JObj? && r.value == j.members && r.value.Keys == keys
  {
    if j.JObj? && j.members.Keys == keys then Some(j.members) else None
  }

  function ParseTime(j: Json): Option<Time> {
    if j.JNum? && j.num.AsReal() >= 0.0 then Some(j.num.AsReal()) else None
  }

  function ParseOptTime(j: Json): Option<Option<Time>> {
    if j.JNull? then Some(None)
    else
      var t :- ParseTime(j);
      Some(Some(t))
  }

  function ParseStr(j: Json): Option<string> {
    if j.JStr? && j.s != "" then Some(j.s) else None
  }

  function ParseOptStr(j: Json): Option<Option<string>> {
    if j.JNull? then Some(None)
    else
      var s :- ParseStr(j);
      Some(Some(s))
  }

  function ParsePositive(j: Json): Option<int> {
    if j.JNum? && j.num.Whole? && j.num.n > 0 then Some(j.num.n) else None
  }

  function ParseState(j: Json): Option<State> {
    if !j.JWord? then None
    else
      match j.word
      case WHeld => Some(Held)
      case WReserved => Some(Reserved)
      case WTransferring => Some(Transferring)
      case WPlaced => Some(Placed)
      case WReturned => Some(Returned)
      case WCancelled => Some(Cancelled)
      case _ => None
  }

  function ParseStrings(j: Json): Option<seq<string>> {
    if j.JArr? && forall i :: 0 <= i < |j.items| ==> j.items[i].JStr?
    then Some(seq(|j.items|, i requires 0 <= i < |j.items| => j.items[i].s))
    else None
  }

  /** Python's `==` against a small integer: 1, 1.0 and true all equal 1. */
  predicate EqualsInt(j: Json, n: int)
    ensures EqualsInt(j, n) <==>
      || (exists x: Number :: j == JNum(x) && x.AsReal() == n as real)
      || (n == 1 && j == JBool(true)) || (n == 0 && j == JBool(false))
  {
    || (j.JNum? && j.num.AsReal() == n as real)
    || (j.JBool? && (if j.b then 1 else 0) == n)
  }

  function ParseCharge(j: Json): Option<Charge> {
    var m :- ExactKeys(j, {KCpus, KMemMb, KJobSlots});
    var cpus :- ParsePositive(m[KCpus]);
    var mem :- ParsePositive(m[KMemMb]);
    var slots :- ParsePositive(m[KJobSlots]);
    Some(Charge(cpus, mem, slots))
  }

  function ParseTargetJobId(j: Json): Option<Option<string>> {
    if j.JNull? then Some(None)
    else if j.JStr? && TargetJobIdOk(j.s) then Some(Some(j.s))
    else None
  }

  function ParseFingerprint(j: Json): Option<Option<Preimage>> {
    if j.JNull? then Some(None)
    else if j.JDigest? then Some(Some(j.of))
    else None
  }

  const IDENTITY_KEYS: set<Name> := {KNumber, KPhase, KTargetHost, KTargetStateRoot, KReservationId, KIdempotencyKey}
  const DECISION_KEYS: set<Name> := {KCharge, KDecidedAt, KSnapshot, KRanking, KBlockers}
  const TRANSFER_KEYS: set<Name> := {KRequestFingerprint, KTransferStartedAt, KTargetJobId, KAcceptedAt}
  const RETURN_KEYS: set<Name> := {KReturnedAt, KReturnReason, KChargeReleasedAt, KDiagnostics}

  function ParseIdentity(m: Members, number: int, jobId: string): Option<(State, string, string, string)>
    requires IDENTITY_KEYS <= m.Keys
  {
    var phase :- ParseState(m[KPhase]);
    if !EqualsInt(m[KNumber], number) || phase !in {Reserved, Transferring, Placed, Returned}
       || m[KIdempotencyKey] != JStr(jobId) then None
    else
      var host :- ParseStr(m[KTargetHost]);
      var root :- ParseStr(m[KTargetStateRoot]);
      var reservation :- ParseStr(m[KReservationId]);
      Some((phase, host, root, reservation))
  }

  function ParseDecision(m: Members): Option<(Charge, Time, Members, seq<Json>, Members)>
    requires DECISION_KEYS <= m.Keys
  {
    if !m[KSnapshot].JObj? || !m[KRanking].JArr? || !m[KBlockers].JObj? then None
    else
      var charge :- ParseCharge(m[KCharge]);
      var decided :- ParseTime(m[KDecidedAt]);
      Some((charge, decided, m[KSnapshot].members, m[KRanking].items, m[KBlockers].members))
  }

  function ParseTransfer(m: Members): Option<(Option<Preimage>, Option<Time>, Option<string>, Option<Time>)>
    requires TRANSFER_KEYS <= m.Keys
  {
    var fingerprint :- ParseFingerprint(m[KRequestFingerprint]);
    var started :- ParseOptTime(m[KTransferStartedAt]);
    var target :- ParseTargetJobId(m[KTargetJobId]);
    var accepted :- ParseOptTime(m[KAcceptedAt]);
    Some((fingerprint, started, target, accepted))
  }

  function ParseReturn(m: Members): Option<(Option<Time>, Option<string>, Option<Time>, seq<string>)>
    requires RETURN_KEYS <= m.Keys
  {
    var returned :- ParseOptTime(m[KReturnedAt]);
    var reason :- ParseOptStr(m[KReturnReason]);
    var released :- ParseOptTime(m[KChargeReleasedAt]);
    var diagnostics :- ParseStrings(m[KDiagnostics]);
    Some((returned, reason, released, diagnostics))
  }

  function ParseAttempt(j: Json, number: int, jobId: string): Option<Attempt> {
    var m :- ExactKeys(j, IDENTITY_KEYS + DECISION_KEYS + TRANSFER_KEYS + RETURN_KEYS);
    var who :- ParseIdentity(m, number, jobId);
    var why :- ParseDecision(m);
    var sent :- ParseTransfer(m);
    var back :- ParseReturn(m);
    Some(Attempt(number, who.0, who.1, who.2, who.3, why.0, why.1, why.2, why.3, why.4, jobId,
                 sent.0, sent.1, sent.2, sent.3, back.0, back.1, back.2, back.3))
  }

  /** The first `n` attempts of the list. */
  function ParseAttempts(items: seq<Json>, n: nat, jobId: string): Option<seq<Attempt>>
    requires n <= |items|
  {
    if n == 0 then Some([])
    else
      var rest :- ParseAttempts(items, n - 1, jobId);
      var a :- ParseAttempt(items[n - 1], n, jobId);
      Some(rest + [a])
  }

  const RUN_KEYS: set<Name> := {KCommand, KCpus, KMemMb, KWallTimeSeconds, KPriority, KAutoResume, KRetry}
  const LABEL_KEYS: set<Name> := {
    KJobName, KProgram, KExpectedSha, KTags, KCleanWorkdir, KRerunUntil, KRerunMax, KPool}

  function ParseWhole(j: Json): Option<int> {
    if j.JNum? && j.num.Whole? then Some(j.num.n) else None
  }

  function ParseOptWhole(j: Json): Option<Option<int>> {
    if j.JNull? then Some(None)
    else
      var n :- ParseWhole(j);
      Some(Some(n))
  }

  function ParseBool(j: Json): Option<bool> {
    if j.JBool? then Some(j.b) else None
  }

  function ParseAnyOptStr(j: Json): Option<Option<string>> {
    if j.JNull? then Some(None) else if j.JStr? then Some(Some(j.s)) else None
  }

  function ParseRuntime(m: Members): Option<Option<(Number, Number)>> {
    if KRuntimeSeconds !in m then Some(None)
    else
      var j := m[KRuntimeSeconds];
      if j.JArr? && |j.items| == 2 && j.items[0].JNum? && j.items[1].JNum?
      then Some(Some((j.items[0].num, j.items[1].num)))
      else None
  }

  function ParseRun(m: Members): Option<(seq<string>, int, int, Option<int>, int, bool, int)>
    requires RUN_KEYS <= m.Keys
  {
    var command :- ParseStrings(m[KCommand]);
    var cpus :- ParseWhole(m[KCpus]);
    var mem :- ParseWhole(m[KMemMb]);
    var wall :- ParseOptWhole(m[KWallTimeSeconds]);
    var priority :- ParseWhole(m[KPriority]);
    var resume :- ParseBool(m[KAutoResume]);
    var retry :- ParseWhole(m[KRetry]);
    Some((command, cpus, mem, wall, priority, resume, retry))
  }

  type Labels =
    (Option<string>, Option<string>, Option<string>, seq<string>, bool, Option<string>, int, Option<string>)

  function ParseLabels(m: Members): Option<Labels>
    requires LABEL_KEYS <= m.Keys
  {
    var name :- ParseAnyOptStr(m[KJobName]);
    var program :- ParseAnyOptStr(m[KProgram]);
    var sha :- ParseAnyOptStr(m[KExpectedSha]);
    var tags :- ParseStrings(m[KTags]);
    var clean :- ParseBool(m[KCleanWorkdir]);
    var rerun :- ParseAnyOptStr(m[KRerunUntil]);
    var rerunMax :- ParseWhole(m[KRerunMax]);
    var pool :- ParseAnyOptStr(m[KPool]);
    Some((name, program, sha, tags, clean, rerun, rerunMax, pool))
  }

  /** `wire` is the field check of the remote submit path, which every intent also passes. */
  function ParseIntent(j: Json, wire: Intent -> bool): Option<Intent> {
    var estimated := if j.JObj? && KRuntimeSeconds in j.members then {KRuntimeSeconds} else {};
    var m :- ExactKeys(j, RUN_KEYS + LABEL_KEYS + estimated);
    var run :- ParseRun(m);
    var labels :- ParseLabels(m);
    var runtime :- ParseRuntime(m);
    var t := Intent(run.0, run.1, run.2, run.3, run.4, run.5, run.6, labels.0, labels.1, labels.2,
                    labels.3, labels.4, labels.5, labels.6, labels.7, runtime);
    if IntentOk(t) && wire(t) then Some(t) else None
  }

  function ParseCancellation(j: Json): Option<Option<Cancellation>> {
    if j.JNull? then Some(None)
    else
      var m :- ExactKeys(j, {KRequestedAt, KReason, KCompletedAt});
      var requested :- ParseTime(m[KRequestedAt]);
      var reason :- ParseStr(m[KReason]);
      var completed :- ParseOptTime(m[KCompletedAt]);
      Some(Some(Cancellation(requested, reason, completed)))
  }

  function BlockerTexts(m: Members): (d: map<string, string>)
    requires forall k :: k in m ==> k.Named? && m[k].JStr?
    ensures forall h :: h in d <==> Named(h) in m
    ensures forall h :: h in d ==> d[h] == m[Named(h)].s
  {
    map k | k in m :: k.text := m[k].s
  }

  function Hosts(b: Blockers): (hosts: seq<string>)
    ensures |hosts| == |b| && forall i :: 0 <= i < |b| ==> hosts[i] == b[i].0
  {
    seq(|b|, i requires 0 <= i < |b| => b[i].0)
  }

  /** Strictly ascending hosts, so none repeats. */
  ghost predicate SortedBlockers(b: Blockers) {
    StringOrder.Ascending(Hosts(b))
  }

  /** The dictionary's items, sorted by host. */
  ghost function SortedItems(d: map<string, string>): (b: Blockers)
    ensures Hosts(b) == StringOrder.Sorted(d.Keys)
    ensures forall i :: 0 <= i < |b| ==> b[i].0 in d && b[i].1 == d[b[i].0]
  {
    var hosts := StringOrder.Sorted(d.Keys);
    seq(|hosts|, i requires 0 <= i < |hosts| => (assert hosts[i] in hosts; (hosts[i], d[hosts[i]])))
  }

  ghost function ParseBlockers(m: Members): Option<Blockers> {
    if KHeldBlockers !in m then Some([])
    else
      var j := m[KHeldBlockers];
      if j.JObj? && forall k :: k in j.members ==>
           k.Named? && k.text != "" && j.members[k].JStr? && j.members[k].s != ""
      then Some(SortedItems(BlockerTexts(j.members)))
      else None
  }

  const HEAD_KEYS: set<Name> := {KSchema, KBrokerJobId, KRevision, KState, KCreatedAt, KUpdatedAt}
  const BODY_KEYS: set<Name> := {KIntent, KIntentDigest, KPayload, KAttempts, KCancellation}

  function ParseHead(m: Members): Option<(string, int, State, Time, Time)>
    requires HEAD_KEYS <= m.Keys
  {
    if m[KSchema] != JWord(WRecordSchema) || !m[KBrokerJobId].JStr? || !BrokerJobIdOk(m[KBrokerJobId].s) then None
    else
      var revision :- ParsePositive(m[KRevision]);
      var state :- ParseState(m[KState]);
      var created :- ParseTime(m[KCreatedAt]);
      var updated :- ParseTime(m[KUpdatedAt]);
      Some((m[KBrokerJobId].s, revision, state, created, updated))
  }

  function ParsePayload(j: Json): Option<(Preimage, int)> {
    var m :- ExactKeys(j, {KSha256, KSize});
    var size :- ParseWhole(m[KSize]);
    if m[KSha256].JDigest? && size >= 0 then Some((m[KSha256].of, size)) else None
  }

  function ParseBody(m: Members, jobId: string, wire: Intent -> bool)
    : Option<(Intent, (Preimage, int), seq<Attempt>, Option<Cancellation>)>
    requires BODY_KEYS <= m.Keys
  {
    var intent :- ParseIntent(m[KIntent], wire);
    var payload :- ParsePayload(m[KPayload]);
    if m[KIntentDigest] != JDigest(IntentDigest(intent))
       || !m[KAttempts].JArr? || |m[KAttempts].items| > ATTEMPTS_MAX then None
    else
      var attempts :- ParseAttempts(m[KAttempts].items, |m[KAttempts].items|, jobId);
      var cancellation :- ParseCancellation(m[KCancellation]);
      Some((intent, payload, attempts, cancellation))
  }

  ghost function ParseRecord(j: Json, wire: Intent -> bool): Option<Record> {
    var blocked := if j.JObj? && KHeldBlockers in j.members then {KHeldBlockers} else {};
    var m :- ExactKeys(j, HEAD_KEYS + BODY_KEYS + blocked);
    var blockers :- ParseBlockers(m);
    var head :- ParseHead(m);
    var body :- ParseBody(m, head.0, wire);
    var r := Record(head.0, head.1, head.2, head.3, head.4, body.0, body.1.0, body.1.1, body.2, body.3, blockers);
    if Consistent(r) then Some(r) else None
  }

  // --------------------------------------------------------------------
  // Round trips

  lemma StringsRoundTrip(s: seq<string>)
    ensures ParseStrings(StrArr(s)) == Some(s)
  {
    var j := StrArr(s);
    assert ParseStrings(j).value == s;
  }

  lemma ChargeRoundTrip(c: Charge)
    requires c.cpus > 0 && c.memMb > 0 && c.jobSlots > 0
    ensures ParseCharge(ChargeDoc(c)) == Some(c)
  {
  }

  lemma TimeRoundTrip(o: Option<Time>)
    requires TimeOk(o)
    ensures ParseOptTime(OptTime(o)) == Some(o)
  {
  }

  /** `m` carries the members of `part` as they are. */
  ghost predicate Carries(m: Members, part: Members) {
    part.Keys <= m.Keys && forall k :: k in part ==> m[k] == part[k]
  }

  lemma IdentityRoundTrip(m: Members, a: Attempt)
    requires Carries(m, AttemptIdentity(a)) && AttemptReadable(a.key, a, a.number)
    ensures IDENTITY_KEYS <= m.Keys
    ensures ParseIdentity(m, a.number, a.key) == Some((a.phase, a.targetHost, a.targetRoot, a.reservationId))
  {
    var part := AttemptIdentity(a);
    assert m[KNumber] == part[KNumber] && m[KPhase] == part[KPhase];
    assert m[KTargetHost] == part[KTargetHost] && m[KTargetStateRoot] == part[KTargetStateRoot];
    assert m[KReservationId] == part[KReservationId] && m[KIdempotencyKey] == part[KIdempotencyKey];
  }

  lemma DecisionRoundTrip(m: Members, a: Attempt)
    requires Carries(m, AttemptDecision(a)) && AttemptReadable(a.key, a, a.number)
    ensures DECISION_KEYS <= m.Keys
    ensures ParseDecision(m) == Some((a.charge, a.decidedAt, a.snapshot, a.ranking, a.blockers))
  {
    var part := AttemptDecision(a);
    assert m[KCharge] == part[KCharge] && m[KDecidedAt] == part[KDecidedAt];
    assert m[KSnapshot] == part[KSnapshot] && m[KRanking] == part[KRanking] && m[KBlockers] == part[KBlockers];
    ChargeRoundTrip(a.charge);
  }

  lemma TransferRoundTrip(m: Members, a: Attempt)
    requires Carries(m, AttemptTransfer(a)) && AttemptReadable(a.key, a, a.number)
    ensures TRANSFER_KEYS <= m.Keys
    ensures ParseTransfer(m) == Some((a.fingerprint, a.transferStartedAt, a.targetJobId, a.acceptedAt))
  {
    var part := AttemptTransfer(a);
    assert m[KRequestFingerprint] == part[KRequestFingerprint];
    assert m[KTransferStartedAt] == part[KTransferStartedAt];
    assert m[KTargetJobId] == part[KTargetJobId] && m[KAcceptedAt] == part[KAcceptedAt];
  }

  lemma ReturnRoundTrip(m: Members, a: Attempt)
    requires Carries(m, AttemptReturn(a)) && AttemptReadable(a.key, a, a.number)
    ensures RETURN_KEYS <= m.Keys
    ensures ParseReturn(m) == Some((a.returnedAt, a.returnReason, a.chargeReleasedAt, a.diagnostics))
  {
    var part := AttemptReturn(a);
    assert m[KReturnedAt] == part[KReturnedAt] && m[KReturnReason] == part[KReturnReason];
    assert m[KChargeReleasedAt] == part[KChargeReleasedAt] && m[KDiagnostics] == part[KDiagnostics];
    StringsRoundTrip(a.diagnostics);
  }

  lemma GroupsDisjoint()
    ensures IDENTITY_KEYS !! DECISION_KEYS && IDENTITY_KEYS !! TRANSFER_KEYS && IDENTITY_KEYS !! RETURN_KEYS
    ensures DECISION_KEYS !! TRANSFER_KEYS && DECISION_KEYS !! RETURN_KEYS && TRANSFER_KEYS !! RETURN_KEYS
  {
  }

  lemma GroupKeys(a: Attempt)
    ensures AttemptIdentity(a).Keys == IDENTITY_KEYS && AttemptDecision(a).Keys == DECISION_KEYS
    ensures AttemptTransfer(a).Keys == TRANSFER_KEYS && AttemptReturn(a).Keys == RETURN_KEYS
  {
  }

  lemma MergeCarries(p: Members, q: Members, r: Members, s: Members)
    requires p.Keys !! q.Keys && p.Keys !! r.Keys && p.Keys !! s.Keys
    requires q.Keys !! r.Keys && q.Keys !! s.Keys && r.Keys !! s.Keys
    ensures Carries(p + q + r + s, p) && Carries(p + q + r + s, q)
    ensures Carries(p + q + r + s, r) && Carries(p + q + r + s, s)
    ensures (p + q + r + s).Keys == p.Keys + q.Keys + r.Keys + s.Keys
  {
  }

  lemma AttemptRoundTrip(a: Attempt, number: int, jobId: string)
    requires AttemptReadable(jobId, a, number)
    ensures ParseAttempt(AttemptDoc(a), number, jobId) == Some(a)
  {
    GroupsDisjoint();
    GroupKeys(a);
    MergeCarries(AttemptIdentity(a), AttemptDecision(a), AttemptTransfer(a), AttemptReturn(a));
    ParseCarriedAttempt(AttemptIdentity(a) + AttemptDecision(a) + AttemptTransfer(a) + AttemptReturn(a), a);
  }

  lemma ParseCarriedAttempt(m: Members, a: Attempt)
    requires AttemptReadable(a.key, a, a.number)
    requires m.Keys == IDENTITY_KEYS + DECISION_KEYS + TRANSFER_KEYS + RETURN_KEYS
    requires Carries(m, AttemptIdentity(a)) && Carries(m, AttemptDecision(a))
    requires Carries(m, AttemptTransfer(a)) && Carries(m, AttemptReturn(a))
    ensures ParseAttempt(JObj(m), a.number, a.key) == Some(a)
  {
    IdentityRoundTrip(m, a);
    DecisionRoundTrip(m, a);
    TransferRoundTrip(m, a);
    ReturnRoundTrip(m, a);
  }

  lemma {:induction false} ParseEach(docs: seq<Json>, attempts: seq<Attempt>, n: nat, jobId: string)
    requires n <= |attempts| == |docs|
    requires forall i :: 0 <= i < |attempts| ==> ParseAttempt(docs[i], i + 1, jobId) == Some(attempts[i])
    ensures ParseAttempts(docs, n, jobId) == Some(attempts[..n])
  {
    hide ParseAttempt;
    if n > 0 {
      ParseEach(docs, attempts, n - 1, jobId);
      assert attempts[..n] == attempts[..n - 1] + [attempts[n - 1]];
    }
  }

  lemma AttemptsRoundTrip(attempts: seq<Attempt>, jobId: string)
    requires AttemptsReadable(jobId, attempts)
    ensures ParseAttempts(AttemptDocs(attempts).items, |attempts|, jobId) == Some(attempts)
  {
    hide ParseAttempt, AttemptDoc, AttemptReadable;
    var docs := AttemptDocs(attempts).items;
    forall i | 0 <= i < |attempts| ensures ParseAttempt(docs[i], i + 1, jobId) == Some(attempts[i]) {
      AttemptRoundTrip(attempts[i], i + 1, jobId);
    }
    ParseEach(docs, attempts, |attempts|, jobId);
    assert attempts[..|attempts|] == attempts;
  }

  lemma RunRoundTrip(m: Members, t: Intent)
    requires Carries(m, IntentRun(t))
    ensures RUN_KEYS <= m.Keys
    ensures ParseRun(m) == Some((t.command, t.cpus, t.memMb, t.wallTime, t.priority, t.autoResume, t.retry))
  {
    var part := IntentRun(t);
    assert m[KCommand] == part[KCommand] && m[KCpus] == part[KCpus] && m[KMemMb] == part[KMemMb];
    assert m[KWallTimeSeconds] == part[KWallTimeSeconds] && m[KPriority] == part[KPriority];
    assert m[KAutoResume] == part[KAutoResume] && m[KRetry] == part[KRetry];
    StringsRoundTrip(t.command);
  }

  lemma LabelsRoundTrip(m: Members, t: Intent)
    requires Carries(m, IntentLabels(t))
    ensures LABEL_KEYS <= m.Keys
    ensures ParseLabels(m) == Some((t.jobName, t.program, t.expectedSha, t.tags, t.cleanWorkdir,
                                    t.rerunUntil, t.rerunMax, t.pool))
  {
    var part := IntentLabels(t);
    assert m[KJobName] == part[KJobName] && m[KProgram] == part[KProgram];
    assert m[KExpectedSha] == part[KExpectedSha] && m[KTags] == part[KTags];
    assert m[KCleanWorkdir] == part[KCleanWorkdir] && m[KRerunUntil] == part[KRerunUntil];
    assert m[KRerunMax] == part[KRerunMax] && m[KPool] == part[KPool];
    StringsRoundTrip(t.tags);
  }

  lemma IntentGroupKeys(t: Intent)
    ensures IntentRun(t).Keys == RUN_KEYS && IntentLabels(t).Keys == LABEL_KEYS
  {
  }

  lemma IntentGroupsDisjoint()
    ensures RUN_KEYS !! LABEL_KEYS && KRuntimeSeconds !in RUN_KEYS + LABEL_KEYS
  {
  }

  lemma ParseCarriedIntent(m: Members, t: Intent, wire: Intent -> bool)
    requires IntentOk(t) && wire(t)
    requires m.Keys == RUN_KEYS + LABEL_KEYS + IntentEstimate(t).Keys
    requires KRuntimeSeconds !in RUN_KEYS + LABEL_KEYS
    requires Carries(m, IntentRun(t)) && Carries(m, IntentLabels(t)) && Carries(m, IntentEstimate(t))
    ensures ParseIntent(JObj(m), wire) == Some(t)
  {
    hide RUN_KEYS, LABEL_KEYS, ParseRun, ParseLabels, IntentRun, IntentLabels, IntentOk;
    RunRoundTrip(m, t);
    LabelsRoundTrip(m, t);
    if t.runtimeSeconds.Some? {
      assert m[KRuntimeSeconds] == IntentEstimate(t)[KRuntimeSeconds];
    }
  }

  lemma IntentRoundTrip(t: Intent, wire: Intent -> bool)
    requires IntentOk(t) && wire(t)
    ensures ParseIntent(IntentDoc(t), wire) == Some(t)
  {
    hide RUN_KEYS, LABEL_KEYS, IntentRun, IntentLabels, IntentOk, ParseIntent;
    IntentGroupKeys(t);
    IntentGroupsDisjoint();
    var m := IntentRun(t) + IntentLabels(t) + IntentEstimate(t);
    MergeCarries(IntentRun(t), IntentLabels(t), IntentEstimate(t), map[]);
    assert m + map[] == m;
    ParseCarriedIntent(m, t, wire);
  }

  lemma CancellationRoundTrip(o: Option<Cancellation>)
    requires o.Some? ==> o.value.requestedAt >= 0.0 && o.value.reason != "" && TimeOk(o.value.completedAt)
    ensures ParseCancellation(CancellationDoc(o)) == Some(o)
  {
    if o.Some? { TimeRoundTrip(o.value.completedAt); }
  }

  /** What a record's held blockers become when the record is read back. */
  ghost function Canonical(b: Blockers): Blockers {
    SortedItems(Dict(b))
  }

  lemma {:induction false} DictKeepsTexts(b: Blockers)
    requires BlockersOk(b)
    ensures forall h :: h in Dict(b) ==> h != "" && Dict(b)[h] != ""
  {
    if b != [] { DictKeepsTexts(b[..|b| - 1]); }
  }

  lemma TextsOfMembers(d: map<string, string>)
    ensures var m := TextMembers(d);
            && (forall k :: k in m ==> k.Named? && m[k].JStr? && k.text in d && m[k].s == d[k.text])
            && BlockerTexts(m) == d
  {
    assert forall h :: h in d ==> Named(h) in TextMembers(d);
  }

  lemma ParseDictionary(m: Members, d: map<string, string>)
    requires KHeldBlockers in m && m[KHeldBlockers] == JObj(TextMembers(d))
    requires forall h :: h in d ==> h != "" && d[h] != ""
    ensures ParseBlockers(m) == Some(SortedItems(d))
  {
    hide SortedItems, TextMembers, BlockerTexts;
    TextsOfMembers(d);
  }

  lemma BlockersRoundTrip(m: Members, r: Record)
    requires BlockersOk(r.heldBlockers)
    requires if r.heldBlockers == [] then KHeldBlockers !in m
             else Carries(m, RecordBlockers(r))
    ensures ParseBlockers(m) == Some(Canonical(r.heldBlockers))
  {
    var b := r.heldBlockers;
    if b == [] {
      assert |Hosts(Canonical(b))| == 0;
    } else {
      hide SortedItems, ParseBlockers, Dict;
      assert m[KHeldBlockers] == RecordBlockers(r)[KHeldBlockers];
      DictKeepsTexts(b);
      ParseDictionary(m, Dict(b));
    }
  }

  lemma HeadRoundTrip(m: Members, r: Record)
    requires Readable(r) && Carries(m, RecordHead(r))
    ensures HEAD_KEYS <= m.Keys
    ensures ParseHead(m) == Some((r.jobId, r.revision, r.state, r.createdAt, r.updatedAt))
  {
    hide BrokerJobIdOk, Consistent, AttemptsReadable, IntentOk;
    var part := RecordHead(r);
    assert m[KSchema] == part[KSchema] && m[KBrokerJobId] == part[KBrokerJobId];
    assert m[KRevision] == part[KRevision] && m[KState] == part[KState];
    assert m[KCreatedAt] == part[KCreatedAt] && m[KUpdatedAt] == part[KUpdatedAt];
  }

  lemma PayloadRoundTrip(r: Record)
    requires r.payloadSize >= 0
    ensures ParsePayload(PayloadDoc(r)) == Some((r.payload, r.payloadSize))
  {
  }

  lemma BodyRoundTrip(m: Members, r: Record, wire: Intent -> bool)
    requires Readable(r) && wire(r.intent) && Carries(m, RecordBody(r))
    ensures BODY_KEYS <= m.Keys
    ensures ParseBody(m, r.jobId, wire) == Some((r.intent, (r.payload, r.payloadSize), r.attempts, r.cancellation))
  {
    hide ParseIntent, ParseAttempts, ParseCancellation, ParsePayload, IntentDoc, IntentDigest,
         AttemptsReadable, CancellationDoc, PayloadDoc, Consistent, IntentOk, BrokerJobIdOk, AttemptDoc;
    var part := RecordBody(r);
    assert m[KIntent] == part[KIntent] && m[KIntentDigest] == part[KIntentDigest];
    assert m[KPayload] == part[KPayload] && m[KAttempts] == part[KAttempts];
    assert m[KCancellation] == part[KCancellation];
    IntentRoundTrip(r.intent, wire);
    PayloadRoundTrip(r);
    AttemptsRoundTrip(r.attempts, r.jobId);
    CancellationRoundTrip(r.cancellation);
  }

  lemma RecordGroupKeys(r: Record)
    ensures RecordHead(r).Keys == HEAD_KEYS && RecordBody(r).Keys == BODY_KEYS
    ensures HEAD_KEYS !! BODY_KEYS && KHeldBlockers !in HEAD_KEYS + BODY_KEYS
  {
    hide IntentDoc, IntentDigest, PayloadDoc, AttemptDocs, CancellationDoc;
  }

  lemma CanonicalConsistent(r: Record)
    requires Consistent(r)
    ensures Consistent(r.(heldBlockers := Canonical(r.heldBlockers)))
  {
    hide AttemptConsistent, Canonical, ExpectedPhases;
    CanonicalEmpty(r.heldBlockers);
  }

  lemma CanonicalEmpty(b: Blockers)
    ensures b == [] ==> Canonical(b) == []
  {
    if b == [] { assert |Hosts(Canonical(b))| == 0; }
  }

  lemma ParseCarriedRecord(m: Members, r: Record, wire: Intent -> bool)
    requires Readable(r) && wire(r.intent)
    requires m.Keys == HEAD_KEYS + BODY_KEYS + RecordBlockers(r).Keys
    requires KHeldBlockers !in HEAD_KEYS + BODY_KEYS
    requires Carries(m, RecordHead(r)) && Carries(m, RecordBody(r)) && Carries(m, RecordBlockers(r))
    ensures ParseRecord(JObj(m), wire) == Some(r.(heldBlockers := Canonical(r.heldBlockers)))
  {
    hide RecordHead, RecordBody, HEAD_KEYS, BODY_KEYS, ParseHead, ParseBody, ParseBlockers,
         AttemptsReadable, IntentOk, BrokerJobIdOk, DictMembers, Consistent, Canonical, Carries;
    BlockersRoundTrip(m, r);
    HeadRoundTrip(m, r);
    BodyRoundTrip(m, r, wire);
    CanonicalConsistent(r);
  }

  /** A published record is read back as the record with canonical blockers. */
  lemma RecordRoundTrip(r: Record, wire: Intent -> bool)
    requires Readable(r) && wire(r.intent)
    ensures ParseRecord(RecordDoc(r), wire) == Some(r.(heldBlockers := Canonical(r.heldBlockers)))
  {
    hide RecordHead, RecordBody, HEAD_KEYS, BODY_KEYS, Readable, DictMembers, Canonical, ParseRecord;
    RecordGroupKeys(r);
    var m := RecordHead(r) + RecordBody(r) + RecordBlockers(r);
    MergeCarries(RecordHead(r), RecordBody(r), RecordBlockers(r), map[]);
    assert m + map[] == m;
    ParseCarriedRecord(m, r, wire);
  }

  /** Reading back gives exactly what was published, if and only if its blockers were listed
      in ascending order of distinct hosts. */
  lemma RoundTripIffSorted(r: Record, wire: Intent -> bool)
    requires Readable(r) && wire(r.intent)
    ensures ParseRecord(RecordDoc(r), wire) == Some(r) <==> SortedBlockers(r.heldBlockers)
  {
    hide Readable, RecordDoc, ParseRecord;
    RecordRoundTrip(r, wire);
    if SortedBlockers(r.heldBlockers) { SortedIsCanonical(r.heldBlockers); }
  }

  /** What a transfer records before it is sent is read back whole by the process that replays
      it: same target, key and fingerprint, whatever blockers the job was held with before. */
  lemma TransferReadsBack(r: Record, now: Time, wire: Intent -> bool)
    requires Grounded(r) && now >= 0.0 && wire(r.intent) && Next(r, BeginTransfer, now).Some?
    ensures ParseRecord(RecordDoc(Next(r, BeginTransfer, now).value), wire) == Next(r, BeginTransfer, now)
  {
    hide Grounded, Readable, RecordDoc, ParseRecord, TransferFingerprint;
    var r' := Next(r, BeginTransfer, now).value;
    NextKeepsGrounded(r, BeginTransfer, now);
    GroundedIsReadable(r');
    GroundedIsConsistent(r');
    RoundTripIffSorted(r', wire);
  }

  lemma SortedIsCanonical(b: Blockers)
    requires SortedBlockers(b)
    ensures Canonical(b) == b
  {
    var c := Canonical(b);
    DictHosts(b);
    StringOrder.SortedUnique(Hosts(b), Hosts(c));
    forall i | 0 <= i < |b| ensures c[i] == b[i] {
      assert Hosts(b)[i] == Hosts(c)[i];
      DictOfSorted(b, i);
    }
  }

  lemma DictHosts(b: Blockers)
    ensures forall h :: h in Hosts(b) <==> h in Dict(b).Keys
  {
    forall h ensures h in Hosts(b) <==> h in Dict(b) {
      if h in Dict(b) {
        var i :| 0 <= i < |b| && b[i].0 == h;
        assert Hosts(b)[i] == h;
      }
    }
  }

  lemma {:induction false} DictOfSorted(b: Blockers, i: nat)
    requires SortedBlockers(b) && i < |b|
    ensures b[i].0 in Dict(b) && Dict(b)[b[i].0] == b[i].1
  {
    var n := |b| - 1;
    if i < n {
      assert Hosts(b[..n]) == Hosts(b)[..n];
      DictOfSorted(b[..n], i);
      StringOrder.LessAsymmetric(Hosts(b)[i], Hosts(b)[n]);
    }
  }

  /** Blockers sorted before they are recorded, each host once, read back as they were. */
  lemma SortedPairsReadBack(b: Blockers)
    requires StringOrder.DistinctNames(b)
    ensures SortedBlockers(StringOrder.SortPairs(b))
  {
    StringOrder.SortAscends(b);
  }

  lemma AscendingIsSorted(b: Blockers)
    requires StringOrder.AscendingNames(b)
    ensures SortedBlockers(b)
  {
  }
}
