/** The fleet broker as a distributed protocol (src/vq/broker_store.py,
    src/vq/broker_placement.py, src/vq/broker_service.py, src/vq/submit.py).

    The world is the broker's durable records, the claims each target's state root holds,
    the requests that ever left the broker, and one broker process that may die at any
    moment. A request once sent may be delivered never, late, or any number of times. Every
    write is a compare-and-swap that any process may try at any time. */
module BrokerProtocol {
  import opened Common
  import opened JsonModel
  import opened BrokerRecord

  /** What a target's state root durably holds under an idempotency key. */
  datatype Claim = Accepted(id: string, content: (Preimage, Preimage), at: Time) | Fenced

  type Claims = map<string, map<string, Claim>>

  /** One keyed submission, bound to its target's state root. */
  datatype Request = Request(jobId: string, root: string, key: string, fingerprint: Preimage,
                             content: (Preimage, Preimage))

  /** One target's capacity answer: asked at `start`, sampled there at `at`, with the figures
      its daemon published last if the daemon gave any, listing the jobs it knows. */
  datatype Sample = Sample(root: string, start: Time, at: Time, published: Option<Time>, jobs: set<string>) {
    /** How old the figures were when sampled; an answer without figures has no age. */
    function Age(): Time {
      if published.None? || at <= published.value then 0.0 else at - published.value
    }

    /** The time the broker gives the answer: the question's time less the figures' age. */
    function ObservedAt(): (t: Time)
      ensures published.Some? && published.value < at ==> t + at == start + published.value
      ensures published.None? || at <= published.value ==> t == start
    {
      start - Age()
    }
  }

  datatype World = World(
    records: map<string, Record>, claims: Claims, sent: set<Request>, armed: Option<Request>,
    clock: Time, figures: map<string, Time>, samples: set<Sample>)

  datatype Step =
    | Tick(elapsed: Time)
    | Accept(jobId: string, intent: Intent, payload: Preimage, size: nat)
    | Change(jobId: string, expected: int, op: Op)
    | Arm(jobId: string)
    | Send
    | Crash
    | Deliver(request: Request, root: string, newId: string)
    | Fence(root: string, key: string)
    | Place(jobId: string, expected: int, fingerprint: Preimage, id: string)
    | Return(jobId: string, expected: int, proof: string)
    | Publish(root: string)
    | Collect(root: string, start: Time, at: Time, answered: bool)
    | Settle(jobId: string, expected: int, sample: Sample)

  // --------------------------------------------------------------------
  // Targets

  function ClaimOf(claims: Claims, root: string, key: string): Option<Claim> {
    if root in claims && key in claims[root] then Some(claims[root][key]) else None
  }

  function SetClaim(claims: Claims, root: string, key: string, c: Claim): Claims {
    claims[root := (if root in claims then claims[root] else map[])[key := c]]
  }

  /** The keyed submit under the target's per-key lock: an unclaimed key is accepted once,
      a claimed or fenced one never again. */
  function DeliverTo(claims: Claims, root: string, key: string, content: (Preimage, Preimage),
                     newId: string, now: Time): Claims {
    if ClaimOf(claims, root, key).None? then SetClaim(claims, root, key, Accepted(newId, content, now))
    else claims
  }

  /** The fence under the same lock: a claim stands, an unclaimed key is refused for ever. */
  function FenceAt(claims: Claims, root: string, key: string): Claims {
    if ClaimOf(claims, root, key).None? then SetClaim(claims, root, key, Fenced) else claims
  }

  predicate IdUsed(claims: Claims, id: string) {
    exists root, key :: root in claims && key in claims[root]
                        && claims[root][key].Accepted? && claims[root][key].id == id
  }

  function JobsOf(claims: Claims, root: string): set<string> {
    if root !in claims then {}
    else set key | key in claims[root] && claims[root][key].Accepted? :: claims[root][key].id
  }

  // --------------------------------------------------------------------
  // The broker

  /** Compare-and-swap on one record, at the broker's clock. */
  function Write(w: World, jobId: string, expected: int, op: Op): World {
    if jobId !in w.records || w.records[jobId].revision != expected then w
    else
      var next := Next(w.records[jobId], op, w.clock);
      if next.Some? then w.(records := w.records[jobId := next.value]) else w
  }

  /** The request `transfer_request` builds from a transferring record. */
  function RequestOf(r: Record): Option<Request> {
    if r.state != Transferring || r.attempts == [] then None
    else
      var a := r.attempts[|r.attempts| - 1];
      if a.fingerprint != Some(TransferFingerprint(r, a)) then None
      else Some(Request(r.jobId, a.targetRoot, a.key, a.fingerprint.value, (IntentDigest(r.intent), r.payload)))
  }

  /** A request is built exactly for a transferring record whose newest attempt still carries its own
      fingerprint; it goes to that attempt's root under its key, with the record's content. */
  lemma RequestMeans(r: Record)
    requires r.attempts != []
    ensures var a := r.attempts[|r.attempts| - 1];
            && (RequestOf(r).Some? <==> r.state == Transferring && a.fingerprint == Some(TransferFingerprint(r, a)))
            && (RequestOf(r).Some? ==>
                  var q := RequestOf(r).value;
                  && q.jobId == r.jobId && q.root == a.targetRoot && q.key == a.key
                  && Some(q.fingerprint) == a.fingerprint
                  && q.content.0 == Text(IntentDoc(r.intent)) && q.content.1 == r.payload)
  {
    hide TransferFingerprint, IntentDoc;
  }

  /** The target answered that it accepted this transfer as job `id`. */
  predicate Answered(w: World, jobId: string, fingerprint: Preimage, id: string) {
    jobId in w.records &&
    exists i :: 0 <= i < |w.records[jobId].attempts| &&
      var a := w.records[jobId].attempts[i];
      && a.fingerprint == Some(fingerprint)
      && ClaimOf(w.claims, a.targetRoot, a.key).Some?
      && ClaimOf(w.claims, a.targetRoot, a.key).value.Accepted?
      && ClaimOf(w.claims, a.targetRoot, a.key).value.id == id
  }

  /** The target answered that the current attempt's key is fenced in its state root. */
  predicate FenceAnswered(w: World, jobId: string) {
    && jobId in w.records && w.records[jobId].attempts != []
    && var a := w.records[jobId].attempts[|w.records[jobId].attempts| - 1];
       ClaimOf(w.claims, a.targetRoot, a.key) == Some(Fenced)
  }

  /** The pass may settle: the sample lists the job, and its figures are newer than the
      recorded acceptance. */
  predicate SettleEvidence(w: World, jobId: string, s: Sample) {
    && s in w.samples && jobId in w.records && w.records[jobId].attempts != []
    && var a := w.records[jobId].attempts[|w.records[jobId].attempts| - 1];
       && a.targetJobId.Some? && a.targetJobId.value in s.jobs
       && a.acceptedAt.Some? && s.ObservedAt() > a.acceptedAt.value
  }

  predicate NeedsEvidence(op: Op) {
    op.RecordPlaced? || op.FenceTransfer? || op.SettleCharge?
  }

  /** One step; a step that is not possible changes nothing. */
  function Apply(w: World, step: Step): World {
    match step
    case Tick(elapsed) => if elapsed < 0.0 then w else w.(clock := w.clock + elapsed)
    case Accept(jobId, intent, payload, size) =>
      if jobId in w.records || !BrokerJobIdOk(jobId) || !IntentOk(intent) || !payload.Bytes? then w
      else w.(records := w.records[jobId := NewRecord(jobId, intent, payload, size, w.clock)])
    case Change(jobId, expected, op) => if NeedsEvidence(op) then w else Write(w, jobId, expected, op)
    case Arm(jobId) =>
      if jobId !in w.records || w.records[jobId].cancellation.Some? then w
      else if RequestOf(w.records[jobId]).None? then w
      else w.(armed := RequestOf(w.records[jobId]))
    case Send => if w.armed.None? then w else w.(sent := w.sent + {w.armed.value}, armed := None)
    case Crash => w.(armed := None)
    case Deliver(request, root, newId) =>
      if request !in w.sent || IdUsed(w.claims, newId) then w
      else w.(claims := DeliverTo(w.claims, root, request.key, request.content, newId, w.clock))
    case Fence(root, key) => w.(claims := FenceAt(w.claims, root, key))
    case Place(jobId, expected, fingerprint, id) =>
      if Answered(w, jobId, fingerprint, id) then Write(w, jobId, expected, RecordPlaced(fingerprint, id)) else w
    case Return(jobId, expected, proof) =>
      if FenceAnswered(w, jobId) then Write(w, jobId, expected, FenceTransfer(proof)) else w
    case Publish(root) => w.(figures := w.figures[root := w.clock])
    case Collect(root, start, at, answered) =>
      if !(start <= at <= w.clock) || (answered && root !in w.figures) then w
      else
        var published := if answered then Some(w.figures[root]) else None;
        w.(samples := w.samples + {Sample(root, start, at, published, JobsOf(w.claims, root))})
    case Settle(jobId, expected, sample) =>
      if SettleEvidence(w, jobId, sample) then Write(w, jobId, expected, SettleCharge) else w
  }

  ghost function Run(w: World, steps: seq<Step>): World
    decreases |steps|
  {
    if steps == [] then w else Run(Apply(w, steps[0]), steps[1..])
  }

  /** A copy of a request reaches the state root it was recorded for. The broker checks that
      root before it sends; the target does not check it again. */
  predicate LandsHome(step: Step) {
    step.Deliver? ==> step.root == step.request.root
  }

  ghost predicate AllLandHome(steps: seq<Step>) {
    forall i :: 0 <= i < |steps| ==> LandsHome(steps[i])
  }

  const START: World := World(map[], map[], {}, None, 0.0, map[], {})

  // --------------------------------------------------------------------
  // The invariant

  ghost predicate RecordsOk(w: World) {
    forall j :: j in w.records ==>
      Grounded(w.records[j]) && w.records[j].jobId == j && Fingerprinted(w.records[j])
  }

  ghost predicate Sane(w: World) {
    w.clock >= 0.0 && RecordsOk(w)
  }

  /** Some attempt of the key's own job carries this fingerprint for this root. */
  ghost predicate Begun(records: map<string, Record>, key: string, root: string, fingerprint: Preimage) {
    key in records &&
    exists i :: 0 <= i < |records[key].attempts| && Carries(records[key].attempts[i], root, fingerprint)
  }

  ghost predicate Carries(a: Attempt, root: string, fingerprint: Preimage) {
    a.targetRoot == root && a.fingerprint == Some(fingerprint)
  }

  /** The content is the key's own job: its intent and its payload. */
  ghost predicate Content(records: map<string, Record>, key: string, content: (Preimage, Preimage)) {
    key in records && content == (IntentDigest(records[key].intent), records[key].payload)
  }

  ghost predicate RequestOk(records: map<string, Record>, q: Request) {
    && q.jobId == q.key && Begun(records, q.key, q.root, q.fingerprint)
    && Content(records, q.key, q.content)
  }

  /** Nothing is sent, or about to be sent, that no transfer began. */
  ghost predicate RequestsBegun(w: World) {
    && (forall q :: q in w.sent ==> RequestOk(w.records, q))
    && (w.armed.Some? ==> RequestOk(w.records, w.armed.value))
  }

  ghost predicate AcceptedAt(claims: Claims, root: string, key: string) {
    ClaimOf(claims, root, key).Some? && ClaimOf(claims, root, key).value.Accepted?
  }

  /** No target accepted what no transfer began. */
  ghost predicate ClaimsBegun(w: World) {
    forall root, key :: AcceptedAt(w.claims, root, key) ==>
      && ClaimOf(w.claims, root, key).value.at <= w.clock
      && Content(w.records, key, ClaimOf(w.claims, root, key).value.content)
      && exists fingerprint :: Begun(w.records, key, root, fingerprint)
  }

  ghost predicate UniqueIds(claims: Claims) {
    forall root, key, root', key' ::
      AcceptedAt(claims, root, key) && AcceptedAt(claims, root', key')
      && ClaimOf(claims, root, key).value.id == ClaimOf(claims, root', key').value.id
      ==> root == root' && key == key'
  }

  /** What an attempt's phase says about its target: a started transfer came back only past a
      fence, and a placed one names the job its target accepted, earlier than recorded. */
  ghost predicate Witnessed(claims: Claims, a: Attempt, clock: Time) {
    && (a.phase == Returned && Started(a) ==> ClaimOf(claims, a.targetRoot, a.key) == Some(Fenced))
    && (a.phase == Placed ==>
          && AcceptedAt(claims, a.targetRoot, a.key)
          && Some(ClaimOf(claims, a.targetRoot, a.key).value.id) == a.targetJobId
          && a.acceptedAt.Some?
          && ClaimOf(claims, a.targetRoot, a.key).value.at <= a.acceptedAt.value <= clock)
  }

  ghost predicate AttemptsWitnessed(w: World) {
    forall j, i :: j in w.records && 0 <= i < |w.records[j].attempts| ==>
      Witnessed(w.claims, w.records[j].attempts[i], w.clock)
  }

  ghost predicate SampleOk(w: World, s: Sample) {
    && s.start <= s.at <= w.clock
    && (s.published.Some? ==> s.root in w.figures && s.published.value <= w.figures[s.root])
    && (forall id :: id in s.jobs ==>
          exists key :: AcceptedAt(w.claims, s.root, key) && ClaimOf(w.claims, s.root, key).value.id == id)
  }

  ghost predicate SamplesOk(w: World) {
    && (forall s :: s in w.samples ==> SampleOk(w, s))
    && (forall root :: root in w.figures ==> w.figures[root] <= w.clock)
  }

  ghost predicate Inv(w: World) {
    && Sane(w) && RequestsBegun(w) && ClaimsBegun(w) && UniqueIds(w.claims)
    && AttemptsWitnessed(w) && SamplesOk(w)
  }

  // --------------------------------------------------------------------
  // Every step keeps it

  /** A claim, once made, stands for ever. */
  lemma ClaimsStand(w: World, step: Step, root: string, key: string)
    requires ClaimOf(w.claims, root, key).Some?
    ensures ClaimOf(Apply(w, step).claims, root, key) == ClaimOf(w.claims, root, key)
  {
    hide Next, Answered, FenceAnswered, SettleEvidence, RequestOf, NewRecord, IntentOk, BrokerJobIdOk, IdUsed;
  }

  /** A write to one record keeps what is known of requests and claims. */
  lemma BegunStands(w: World, j: string, op: Op, key: string, root: string, fingerprint: Preimage)
    requires RecordsOk(w) && j in w.records && Next(w.records[j], op, w.clock).Some?
    requires Begun(w.records, key, root, fingerprint)
    ensures Begun(w.records[j := Next(w.records[j], op, w.clock).value], key, root, fingerprint)
  {
    hide Grounded, Next, Fingerprinted;
    var r := w.records[j];
    NextMoves(r, op, w.clock);
    var i :| 0 <= i < |w.records[key].attempts| && Carries(w.records[key].attempts[i], root, fingerprint);
    if key == j {
      assert AttemptMoves(r.attempts[i], Next(r, op, w.clock).value.attempts[i], op, w.clock);
      assert Carries(Next(r, op, w.clock).value.attempts[i], root, fingerprint);
    }
  }

  /** The world after a published write. */
  ghost function Written(w: World, j: string, op: Op): World
    requires j in w.records && Next(w.records[j], op, w.clock).Some?
  {
    w.(records := w.records[j := Next(w.records[j], op, w.clock).value])
  }

  lemma WriteKeepsRecords(w: World, j: string, op: Op)
    requires Sane(w) && j in w.records && Next(w.records[j], op, w.clock).Some?
    ensures RecordsOk(Written(w, j, op))
  {
    hide Grounded, Next, Fingerprinted;
    NextKeepsGrounded(w.records[j], op, w.clock);
    NextKeepsFingerprinted(w.records[j], op, w.clock);
    NextMoves(w.records[j], op, w.clock);
  }

  lemma WriteKeepsContent(w: World, j: string, op: Op, key: string, content: (Preimage, Preimage))
    requires RecordsOk(w) && j in w.records && Next(w.records[j], op, w.clock).Some?
    requires Content(w.records, key, content)
    ensures Content(Written(w, j, op).records, key, content)
  {
    hide Grounded, Next, Fingerprinted, IntentDigest;
    NextMoves(w.records[j], op, w.clock);
  }

  lemma WriteKeepsRequests(w: World, j: string, op: Op)
    requires Inv(w) && j in w.records && Next(w.records[j], op, w.clock).Some?
    ensures RequestsBegun(Written(w, j, op)) && ClaimsBegun(Written(w, j, op))
  {
    hide Grounded, Next, Fingerprinted, Begun, Content;
    var w' := Written(w, j, op);
    forall q | RequestOk(w.records, q) ensures RequestOk(w'.records, q) {
      BegunStands(w, j, op, q.key, q.root, q.fingerprint);
      WriteKeepsContent(w, j, op, q.key, q.content);
    }
    forall root, key | AcceptedAt(w.claims, root, key)
      ensures Content(w'.records, key, ClaimOf(w.claims, root, key).value.content)
      ensures exists fingerprint :: Begun(w'.records, key, root, fingerprint)
    {
      WriteKeepsContent(w, j, op, key, ClaimOf(w.claims, root, key).value.content);
      var fingerprint :| Begun(w.records, key, root, fingerprint);
      BegunStands(w, j, op, key, root, fingerprint);
    }
  }

  /** What an attempt must bring to move: the target's answer for a placement, its fence for a return. */
  ghost predicate Evidence(w: World, a: Attempt, op: Op) {
    && (op.RecordPlaced? && a.fingerprint == Some(op.fingerprint) ==>
          && AcceptedAt(w.claims, a.targetRoot, a.key)
          && ClaimOf(w.claims, a.targetRoot, a.key).value.id == op.targetJobId
          && ClaimOf(w.claims, a.targetRoot, a.key).value.at <= w.clock)
    && (op.FenceTransfer? && a.phase == Transferring ==>
          ClaimOf(w.claims, a.targetRoot, a.key) == Some(Fenced))
  }

  lemma MoveKeepsWitnessed(w: World, a: Attempt, a': Attempt, op: Op)
    requires Witnessed(w.claims, a, w.clock) && Evidence(w, a, op) && AttemptMoves(a, a', op, w.clock)
    requires a.phase == Reserved ==> !Started(a)
    requires a.fingerprint.Some? <==> a.transferStartedAt.Some?
    requires a'.fingerprint.Some? <==> a'.transferStartedAt.Some?
    ensures Witnessed(w.claims, a', w.clock)
  {
    hide ClaimOf, AcceptedAt;
  }

  lemma WriteKeepsWitnessed(w: World, j: string, op: Op)
    requires Inv(w) && j in w.records && Next(w.records[j], op, w.clock).Some?
    requires forall i :: 0 <= i < |w.records[j].attempts| ==> Evidence(w, w.records[j].attempts[i], op)
    ensures AttemptsWitnessed(Written(w, j, op))
  {
    hide Next, Witnessed, AttemptMoves, Consistent, IntentOk, BrokerJobIdOk, BlockersOk, AttemptConsistent;
    hide Evidence;
    var r := w.records[j];
    var r' := Next(r, op, w.clock).value;
    NextMoves(r, op, w.clock);
    NextKeepsGrounded(r, op, w.clock);
    forall i | 0 <= i < |r'.attempts| ensures Witnessed(w.claims, r'.attempts[i], w.clock) {
      assert AttemptGrounded(r'.jobId, r'.attempts[i], i + 1);
      if i < |r.attempts| {
        assert AttemptGrounded(r.jobId, r.attempts[i], i + 1);
        MoveKeepsWitnessed(w, r.attempts[i], r'.attempts[i], op);
      } else {
        FreshWitnessed(w, r'.attempts[i]);
      }
    }
  }

  lemma FreshWitnessed(w: World, a: Attempt)
    requires a.phase == Reserved
    ensures Witnessed(w.claims, a, w.clock)
  {
  }

  lemma WriteKeepsInv(w: World, j: string, op: Op)
    requires Inv(w) && j in w.records && Next(w.records[j], op, w.clock).Some?
    requires forall i :: 0 <= i < |w.records[j].attempts| ==> Evidence(w, w.records[j].attempts[i], op)
    ensures Inv(Written(w, j, op))
  {
    WriteKeepsRecords(w, j, op);
    WriteKeepsRequests(w, j, op);
    WriteKeepsWitnessed(w, j, op);
    assert SamplesOk(Written(w, j, op)) by {
      forall s | s in w.samples ensures SampleOk(Written(w, j, op), s) { assert SampleOk(w, s); }
    }
  }


  /** An answer from the target about this fingerprint is about the attempt that carries it. */
  lemma PlaceEvidence(w: World, j: string, fingerprint: Preimage, id: string, i: nat)
    requires Inv(w) && Answered(w, j, fingerprint, id) && i < |w.records[j].attempts|
    ensures Evidence(w, w.records[j].attempts[i], RecordPlaced(fingerprint, id))
  {
    hide Grounded, TransferFingerprint;
    var r := w.records[j];
    if r.attempts[i].fingerprint == Some(fingerprint) {
      var k :| 0 <= k < |r.attempts| && r.attempts[k].fingerprint == Some(fingerprint)
               && AcceptedAt(w.claims, r.attempts[k].targetRoot, r.attempts[k].key)
               && ClaimOf(w.claims, r.attempts[k].targetRoot, r.attempts[k].key).value.id == id;
      FingerprintBinds(r, r.attempts[i], r, r.attempts[k]);
    }
  }

  lemma OnlyNewestOpen(r: Record, i: nat)
    requires Consistent(r) && i < |r.attempts| && r.attempts[i].phase != Returned
    ensures i == |r.attempts| - 1
  {
  }

  lemma ReturnEvidence(w: World, j: string, proof: string, i: nat)
    requires Inv(w) && FenceAnswered(w, j) && i < |w.records[j].attempts|
    ensures Evidence(w, w.records[j].attempts[i], FenceTransfer(proof))
  {
    hide Consistent, IntentOk, BrokerJobIdOk, BlockersOk, AttemptsGrounded, ClaimOf, Fingerprinted;
    if w.records[j].attempts[i].phase == Transferring { OnlyNewestOpen(w.records[j], i); }
  }

  lemma NoEvidenceNeeded(w: World, op: Op)
    requires !op.RecordPlaced? && !op.FenceTransfer?
    ensures forall a :: Evidence(w, a, op)
  {
  }

  lemma WriteStepKeeps(w: World, j: string, expected: int, op: Op)
    requires Inv(w)
    requires j in w.records ==>
               forall i :: 0 <= i < |w.records[j].attempts| ==> Evidence(w, w.records[j].attempts[i], op)
    ensures Inv(Write(w, j, expected, op))
  {
    hide Inv, Next, Evidence;
    if j in w.records && w.records[j].revision == expected && Next(w.records[j], op, w.clock).Some? {
      WriteKeepsInv(w, j, op);
    }
  }

  // Claims only grow, so what a claim already shows it goes on showing.

  ghost predicate Grows(claims: Claims, claims': Claims) {
    forall root, key :: ClaimOf(claims, root, key).Some? ==>
      ClaimOf(claims', root, key) == ClaimOf(claims, root, key)
  }

  lemma GrowthKeeps(w: World, claims': Claims)
    requires Inv(w) && Grows(w.claims, claims')
    ensures AttemptsWitnessed(w.(claims := claims')) && SamplesOk(w.(claims := claims'))
  {
    hide Grounded, Fingerprinted, ClaimOf;
    var w' := w.(claims := claims');
    forall j, i | j in w.records && 0 <= i < |w.records[j].attempts|
      ensures Witnessed(w'.claims, w'.records[j].attempts[i], w'.clock)
    {
      assert Witnessed(w.claims, w.records[j].attempts[i], w.clock);
    }
    forall s | s in w.samples ensures SampleOk(w', s) {
      assert SampleOk(w, s);
      forall id | id in s.jobs
        ensures exists key :: AcceptedAt(claims', s.root, key) && ClaimOf(claims', s.root, key).value.id == id
      {
        var key :| AcceptedAt(w.claims, s.root, key) && ClaimOf(w.claims, s.root, key).value.id == id;
        assert AcceptedAt(claims', s.root, key);
      }
    }
  }

  lemma DeliverKeeps(w: World, q: Request, newId: string)
    requires Inv(w) && q in w.sent && !IdUsed(w.claims, newId)
    ensures Inv(w.(claims := DeliverTo(w.claims, q.root, q.key, q.content, newId, w.clock)))
  {
    hide Grounded, Fingerprinted, Begun, Content, Witnessed, SampleOk;
    var claims' := DeliverTo(w.claims, q.root, q.key, q.content, newId, w.clock);
    GrowthKeeps(w, claims');
    forall root, key | AcceptedAt(claims', root, key)
      ensures (root == q.root && key == q.key) || claims' == w.claims
              || ClaimOf(claims', root, key) == ClaimOf(w.claims, root, key)
      ensures ClaimOf(claims', root, key) == ClaimOf(w.claims, root, key)
              || (root == q.root && key == q.key
                  && ClaimOf(claims', root, key) == Some(Accepted(newId, q.content, w.clock)))
    {
    }
    assert RequestOk(w.records, q);
    DeliverKeepsUnique(w.claims, claims', q, newId, w.clock);
  }

  lemma DeliverKeepsUnique(claims: Claims, claims': Claims, q: Request, newId: string, now: Time)
    requires UniqueIds(claims) && !IdUsed(claims, newId)
    requires claims' == DeliverTo(claims, q.root, q.key, q.content, newId, now)
    ensures UniqueIds(claims')
  {
    forall root, key | AcceptedAt(claims, root, key) ensures ClaimOf(claims, root, key).value.id != newId {
      assert root in claims && key in claims[root];
    }
    assert forall root, key :: AcceptedAt(claims', root, key) ==>
      ClaimOf(claims', root, key) == ClaimOf(claims, root, key)
      || (root == q.root && key == q.key && ClaimOf(claims', root, key).value.id == newId);
  }

  lemma FenceKeeps(w: World, root: string, key: string)
    requires Inv(w)
    ensures Inv(w.(claims := FenceAt(w.claims, root, key)))
  {
    hide Grounded, Fingerprinted, Begun, Content, Witnessed, SampleOk;
    var claims' := FenceAt(w.claims, root, key);
    GrowthKeeps(w, claims');
    assert forall x, y :: AcceptedAt(claims', x, y) ==> ClaimOf(claims', x, y) == ClaimOf(w.claims, x, y);
  }

  lemma ArmKeeps(w: World, j: string)
    requires Inv(w) && j in w.records && RequestOf(w.records[j]).Some?
    ensures RequestOk(w.records, RequestOf(w.records[j]).value)
  {
    hide TransferFingerprint, IntentDigest, Consistent, IntentOk, BrokerJobIdOk, BlockersOk;
    var r := w.records[j];
    var q := RequestOf(r).value;
    var n := |r.attempts| - 1;
    assert AttemptGrounded(r.jobId, r.attempts[n], n + 1);
    assert Carries(r.attempts[n], q.root, q.fingerprint);
  }

  /** A new job leaves what is known of the others. */
  lemma AcceptBegun(records: map<string, Record>, j: string, r: Record, key: string, root: string,
                    fingerprint: Preimage)
    requires j !in records && Begun(records, key, root, fingerprint)
    ensures Begun(records[j := r], key, root, fingerprint)
  {
    assert records[j := r][key] == records[key];
  }

  lemma AcceptContent(records: map<string, Record>, j: string, r: Record, key: string, content: (Preimage, Preimage))
    requires j !in records && Content(records, key, content)
    ensures Content(records[j := r], key, content)
  {
    hide IntentDigest;
  }

  lemma NothingFingerprinted(r: Record)
    requires r.attempts == []
    ensures Fingerprinted(r)
  {
  }

  lemma AcceptKeeps(w: World, j: string, r: Record)
    requires Inv(w) && j !in w.records && Grounded(r) && r.jobId == j && r.attempts == []
    ensures Inv(w.(records := w.records[j := r]))
  {
    hide Grounded, Witnessed, Begun, Content, Fingerprinted, UniqueIds, SampleOk;
    var w' := w.(records := w.records[j := r]);
    NothingFingerprinted(r);
    forall key, root, fingerprint | Begun(w.records, key, root, fingerprint)
      ensures Begun(w'.records, key, root, fingerprint)
    {
      AcceptBegun(w.records, j, r, key, root, fingerprint);
    }
    forall key, content | Content(w.records, key, content) ensures Content(w'.records, key, content) {
      AcceptContent(w.records, j, r, key, content);
    }
    forall s | s in w.samples ensures SampleOk(w', s) { SampleFrame(w, w', s); }
  }

  lemma SampleFrame(w: World, w': World, s: Sample)
    requires SampleOk(w, s) && w'.claims == w.claims && w'.figures == w.figures && w'.clock == w.clock
    ensures SampleOk(w', s)
  {
  }

  lemma CollectKeeps(w: World, s: Sample)
    requires Inv(w) && s.start <= s.at <= w.clock && s.jobs == JobsOf(w.claims, s.root)
    requires s.published.Some? ==> s.root in w.figures && s.published.value == w.figures[s.root]
    ensures Inv(w.(samples := w.samples + {s}))
  {
    hide Grounded, Fingerprinted, Witnessed, Begun, Content;
    var w' := w.(samples := w.samples + {s});
    forall id | id in s.jobs
      ensures exists key :: AcceptedAt(w.claims, s.root, key) && ClaimOf(w.claims, s.root, key).value.id == id
    {
      var key :| key in w.claims[s.root] && w.claims[s.root][key].Accepted? && w.claims[s.root][key].id == id;
      assert AcceptedAt(w.claims, s.root, key);
    }
    forall x | x in w'.samples ensures SampleOk(w', x) {
      if x != s { assert SampleOk(w, x); }
    }
  }

  lemma TimeKeeps(w: World, clock: Time, figures: map<string, Time>)
    requires Inv(w) && w.clock <= clock
    requires forall root :: root in w.figures ==> root in figures && w.figures[root] <= figures[root]
    requires forall root :: root in figures ==> figures[root] <= clock
    ensures Inv(w.(clock := clock, figures := figures))
  {
    hide Grounded, Fingerprinted, Begun, Content;
    var w' := w.(clock := clock, figures := figures);
    forall j, i | j in w.records && 0 <= i < |w.records[j].attempts|
      ensures Witnessed(w'.claims, w'.records[j].attempts[i], w'.clock)
    {
      assert Witnessed(w.claims, w.records[j].attempts[i], w.clock);
    }
    forall s | s in w.samples ensures SampleOk(w', s) { assert SampleOk(w, s); }
  }

  lemma SendKeeps(w: World, sent: set<Request>, armed: Option<Request>)
    requires Inv(w)
    requires forall q :: q in sent ==> RequestOk(w.records, q)
    requires armed.Some? ==> RequestOk(w.records, armed.value)
    ensures Inv(w.(sent := sent, armed := armed))
  {
    hide RequestOk, Grounded, Fingerprinted, Witnessed, ClaimsBegun;
    var w' := w.(sent := sent, armed := armed);
    assert ClaimsBegun(w') by { ClaimsBegunFrame(w, w'); }
    forall s | s in w.samples ensures SampleOk(w', s) { assert SampleOk(w, s); }
  }

  lemma ClaimsBegunFrame(w: World, w': World)
    requires ClaimsBegun(w) && w'.claims == w.claims && w'.records == w.records && w'.clock == w.clock
    ensures ClaimsBegun(w')
  {
  }

  /** No step breaks the invariant. */
  lemma StepKeeps(w: World, step: Step)
    requires Inv(w) && LandsHome(step)
    ensures Inv(Apply(w, step))
  {
    hide Grounded, Fingerprinted, Witnessed, Begun, Content, SampleOk, ClaimsBegun, Next, Answered;
    hide FenceAnswered, SettleEvidence, Evidence, IdUsed, IntentOk, BrokerJobIdOk, DeliverTo, FenceAt, JobsOf;
    hide RequestOf, UniqueIds, Write, RequestOk;
    match step {
      case Tick(elapsed) => if elapsed >= 0.0 { TimeKeeps(w, w.clock + elapsed, w.figures); }
      case Accept(j, intent, payload, size) =>
        if Apply(w, step) != w {
          NewRecordGrounded(j, intent, payload, size, w.clock);
          AcceptKeeps(w, j, NewRecord(j, intent, payload, size, w.clock));
        }
      case Change(j, expected, op) =>
        if !NeedsEvidence(op) {
          NoEvidenceNeeded(w, op);
          WriteStepKeeps(w, j, expected, op);
        }
      case Arm(j) =>
        if j in w.records && RequestOf(w.records[j]).Some? {
          ArmKeeps(w, j);
          SendKeeps(w, w.sent, RequestOf(w.records[j]));
        }
      case Send => if w.armed.Some? { SendKeeps(w, w.sent + {w.armed.value}, None); }
      case Crash => SendKeeps(w, w.sent, None);
      case Deliver(q, _, newId) => if q in w.sent && !IdUsed(w.claims, newId) { DeliverKeeps(w, q, newId); }
      case Fence(root, key) => FenceKeeps(w, root, key);
      case Place(j, expected, fingerprint, id) =>
        if Answered(w, j, fingerprint, id) {
          forall i | j in w.records && 0 <= i < |w.records[j].attempts|
            ensures Evidence(w, w.records[j].attempts[i], RecordPlaced(fingerprint, id))
          { PlaceEvidence(w, j, fingerprint, id, i); }
          WriteStepKeeps(w, j, expected, RecordPlaced(fingerprint, id));
        }
      case Return(j, expected, proof) =>
        if FenceAnswered(w, j) {
          forall i | j in w.records && 0 <= i < |w.records[j].attempts|
            ensures Evidence(w, w.records[j].attempts[i], FenceTransfer(proof))
          { ReturnEvidence(w, j, proof, i); }
          WriteStepKeeps(w, j, expected, FenceTransfer(proof));
        }
      case Publish(root) => TimeKeeps(w, w.clock, w.figures[root := w.clock]);
      case Collect(root, start, at, answered) =>
        if start <= at <= w.clock && (answered ==> root in w.figures) {
          CollectKeeps(w, Sample(root, start, at, if answered then Some(w.figures[root]) else None,
                                 JobsOf(w.claims, root)));
        }
      case Settle(j, expected, s) =>
        NoEvidenceNeeded(w, SettleCharge);
        WriteStepKeeps(w, j, expected, SettleCharge);
    }
  }

  lemma {:induction false} RunKeeps(w: World, steps: seq<Step>)
    requires Inv(w) && AllLandHome(steps)
    ensures Inv(Run(w, steps))
    decreases |steps|
  {
    hide Inv, Apply;
    if steps != [] {
      StepKeeps(w, steps[0]);
      RunKeeps(Apply(w, steps[0]), steps[1..]);
    }
  }

  // --------------------------------------------------------------------
  // What holds in every run

  /** Two accepted jobs under one key are one job at one root. */
  lemma OneRoot(w: World, key: string, root: string, root': string)
    requires Inv(w) && AcceptedAt(w.claims, root, key) && AcceptedAt(w.claims, root', key)
    ensures root == root'
  {
    AcceptedIsNewest(w, key, root);
    AcceptedIsNewest(w, key, root');
  }

  /** An accepted key's job is at its newest attempt's root, still in transfer or placed, and
      it is the content the record holds. */
  lemma AcceptedIsNewest(w: World, key: string, root: string)
    requires Inv(w) && AcceptedAt(w.claims, root, key)
    ensures key in w.records && w.records[key].attempts != []
    ensures var r := w.records[key]; var a := r.attempts[|r.attempts| - 1];
            a.targetRoot == root && a.key == key && a.phase in {Transferring, Placed} && Started(a)
    ensures Content(w.records, key, ClaimOf(w.claims, root, key).value.content)
  {
    hide Content, IntentOk, BrokerJobIdOk, BlockersOk, Fingerprinted, ClaimOf, Consistent;
    var fingerprint :| Begun(w.records, key, root, fingerprint);
    var r := w.records[key];
    var i :| 0 <= i < |r.attempts| && Carries(r.attempts[i], root, fingerprint);
    assert Witnessed(w.claims, r.attempts[i], w.clock);
    assert AttemptGrounded(r.jobId, r.attempts[i], i + 1);
    OnlyNewestOpen(r, i);
  }

  /** In every run, from the empty broker on: under a broker job's id at most one state root
      ever holds an accepted job, however far apart the two observations are. */
  lemma AtMostOneAcceptedRoot(steps: seq<Step>, later: seq<Step>, key: string, root: string, root': string)
    requires AllLandHome(steps) && AllLandHome(later)
    requires AcceptedAt(Run(START, steps).claims, root, key)
    requires AcceptedAt(Run(Run(START, steps), later).claims, root', key)
    ensures root == root'
  {
    hide Run, Inv, ClaimOf;
    StartInv();
    RunKeeps(START, steps);
    RunKeeps(Run(START, steps), later);
    ClaimsStandForEver(Run(START, steps), later, root, key);
    OneRoot(Run(Run(START, steps), later), key, root, root');
  }

  /** The condition is needed: let one copy of a sent request land at another root that has
      not seen the key, and a second copy at its own, and two roots hold the job. */
  lemma StrayDeliveryBreaks(w: World, q: Request, stray: string, id: string, id': string)
    requires q in w.sent && stray != q.root && id != id'
    requires ClaimOf(w.claims, stray, q.key).None? && ClaimOf(w.claims, q.root, q.key) != Some(Fenced)
    requires !IdUsed(w.claims, id) && !IdUsed(w.claims, id')
    ensures var w' := Run(w, [Deliver(q, stray, id), Deliver(q, q.root, id')]);
            AcceptedAt(w'.claims, stray, q.key) && AcceptedAt(w'.claims, q.root, q.key)
  {
    hide IdUsed;
    var one, two := Deliver(q, stray, id), Deliver(q, q.root, id');
    var mid := Apply(w, one);
    RunTwo(w, one, two);
    assert !IdUsed(mid.claims, id') by { StillUnused(w.claims, stray, q, id, id', w.clock); }
  }

  lemma {:induction false} RunAppend(w: World, steps: seq<Step>, step: Step)
    ensures Run(w, steps + [step]) == Apply(Run(w, steps), step)
    decreases |steps|
  {
    hide Apply;
    if steps == [] {
      assert [step][1..] == [];
    } else {
      assert (steps + [step])[1..] == steps[1..] + [step];
      RunAppend(Apply(w, steps[0]), steps[1..], step);
    }
  }

  lemma {:induction false} RunBoth(w: World, a: seq<Step>, b: seq<Step>)
    ensures Run(w, a + b) == Run(Run(w, a), b)
    decreases |a|
  {
    hide Apply;
    if a == [] {
      assert a + b == b;
    } else {
      assert (a + b)[1..] == a[1..] + b;
      RunBoth(Apply(w, a[0]), a[1..], b);
    }
  }

  /** A step writes to a record at most once, and takes none away. */
  lemma StepRevision(w: World, step: Step, j: string)
    requires j in w.records
    ensures j in Apply(w, step).records
    ensures Apply(w, step).records[j] == w.records[j] || Apply(w, step).records[j].revision == w.records[j].revision + 1
  {
    hide BrokerRecord.Change, NewRecord, Answered, FenceAnswered, SettleEvidence, RequestOf, IntentOk, BrokerJobIdOk;
  }

  lemma {:induction false} StaysKnown(w: World, steps: seq<Step>, j: string)
    requires j in w.records
    ensures j in Run(w, steps).records
    decreases |steps|
  {
    hide Apply;
    if steps != [] {
      StepRevision(w, steps[0], j);
      StaysKnown(Apply(w, steps[0]), steps[1..], j);
    }
  }

  /** A record once in the store is there ever after. */
  lemma KnownLater(before: seq<Step>, after: seq<Step>, j: string)
    requires before <= after && j in Run(START, before).records
    ensures j in Run(START, after).records
  {
    hide Run;
    assert after == before + after[|before|..];
    RunBoth(START, before, after[|before|..]);
    StaysKnown(Run(START, before), after[|before|..], j);
  }

  lemma RunTwo(w: World, one: Step, two: Step)
    ensures Run(w, [one, two]) == Apply(Apply(w, one), two)
  {
    hide Apply;
    assert [one, two][1..] == [two];
    var mid := Apply(w, one);
    assert Run(mid, [two]) == Run(Apply(mid, two), [two][1..]);
  }

  lemma StillUnused(claims: Claims, root: string, q: Request, id: string, id': string, now: Time)
    requires !IdUsed(claims, id') && id != id'
    ensures !IdUsed(DeliverTo(claims, root, q.key, q.content, id, now), id')
  {
  }

  lemma StartInv()
    ensures Inv(START)
  {
  }

  /** The claim a run ever made is there at every later point, so the roots that ever held an
      accepted job are the roots that hold one now. */
  lemma {:induction false} ClaimsStandForEver(w: World, steps: seq<Step>, root: string, key: string)
    requires ClaimOf(w.claims, root, key).Some?
    ensures ClaimOf(Run(w, steps).claims, root, key) == ClaimOf(w.claims, root, key)
    decreases |steps|
  {
    hide Apply;
    if steps != [] {
      ClaimsStand(w, steps[0], root, key);
      ClaimsStandForEver(Apply(w, steps[0]), steps[1..], root, key);
    }
  }

  /** A placed record names the one job its target accepted, and no other root has one. */
  lemma PlacedNamesTheJob(steps: seq<Step>, key: string)
    requires AllLandHome(steps)
    requires key in Run(START, steps).records && Run(START, steps).records[key].state == Placed
    ensures var w := Run(START, steps);
            var r := w.records[key];
            && r.attempts != []
            && var a := r.attempts[|r.attempts| - 1];
               && AcceptedAt(w.claims, a.targetRoot, key)
               && a.targetJobId == Some(ClaimOf(w.claims, a.targetRoot, key).value.id)
               && Content(w.records, key, ClaimOf(w.claims, a.targetRoot, key).value.content)
               && forall root :: AcceptedAt(w.claims, root, key) ==> root == a.targetRoot
  {
    hide Run, AcceptedAt, ClaimOf, Content, Fingerprinted, Grounded;
    StartInv();
    RunKeeps(START, steps);
    var w := Run(START, steps);
    var r := w.records[key];
    LastAttempt(r);
    var n := |r.attempts| - 1;
    assert Witnessed(w.claims, r.attempts[n], w.clock);
    KeyOf(r, n);
    AcceptedIsNewest(w, key, r.attempts[n].targetRoot);
    forall root | AcceptedAt(w.claims, root, key) ensures root == r.attempts[n].targetRoot {
      AcceptedIsNewest(w, key, root);
    }
  }

  lemma KeyOf(r: Record, i: nat)
    requires Grounded(r) && i < |r.attempts|
    ensures r.attempts[i].key == r.jobId
  {
    assert AttemptGrounded(r.jobId, r.attempts[i], i + 1);
  }

  // --------------------------------------------------------------------
  // Cancellation

  lemma AcceptKeepsRecords(w: World, j: string, intent: Intent, payload: Preimage, size: nat)
    requires Sane(w)
    ensures RecordsOk(Apply(w, Accept(j, intent, payload, size)))
  {
    hide Grounded, IntentOk, BrokerJobIdOk;
    var step := Accept(j, intent, payload, size);
    if Apply(w, step) != w { NewRecordGrounded(j, intent, payload, size, w.clock); }
  }

  lemma WriteStaysSane(w: World, j: string, expected: int, op: Op)
    requires Sane(w)
    ensures Sane(Write(w, j, expected, op))
  {
    hide RecordsOk, Next;
    if j in w.records && w.records[j].revision == expected && Next(w.records[j], op, w.clock).Some? {
      WriteKeepsRecords(w, j, op);
    }
  }

  lemma StaysSane(w: World, step: Step)
    requires Sane(w)
    ensures Sane(Apply(w, step))
  {
    hide Grounded, Fingerprinted, Answered, FenceAnswered, SettleEvidence, IdUsed, Write, NewRecord;
    hide IntentOk, BrokerJobIdOk, RequestOf, DeliverTo, FenceAt, JobsOf;
    match step {
      case Accept(j, intent, payload, size) => AcceptKeepsRecords(w, j, intent, payload, size);
      case Change(j, expected, op) => WriteStaysSane(w, j, expected, op);
      case Place(j, expected, fingerprint, id) => WriteStaysSane(w, j, expected, RecordPlaced(fingerprint, id));
      case Return(j, expected, proof) => WriteStaysSane(w, j, expected, FenceTransfer(proof));
      case Settle(j, expected, s) => WriteStaysSane(w, j, expected, SettleCharge);
      case _ =>
    }
  }

  /** Cancelled, with these transfers begun and no others. */
  ghost predicate CancelledWith(w: World, j: string, begun: seq<bool>) {
    && j in w.records && w.records[j].cancellation.Some?
    && |w.records[j].attempts| == |begun|
    && forall i :: 0 <= i < |begun| ==> (w.records[j].attempts[i].fingerprint.Some? <==> begun[i])
  }

  lemma WriteStaysCancelled(w: World, j: string, begun: seq<bool>, j': string, expected: int, op: Op)
    requires Sane(w) && CancelledWith(w, j, begun)
    ensures CancelledWith(Write(w, j', expected, op), j, begun)
  {
    hide Grounded, Next, Fingerprinted;
    if j' == j && w.records[j].revision == expected && Next(w.records[j], op, w.clock).Some? {
      NextMoves(w.records[j], op, w.clock);
    }
  }

  lemma StaysCancelled(w: World, step: Step, j: string, begun: seq<bool>)
    requires Sane(w) && CancelledWith(w, j, begun)
    ensures CancelledWith(Apply(w, step), j, begun)
  {
    hide Grounded, Fingerprinted, Answered, FenceAnswered, SettleEvidence, IdUsed, NewRecord, RequestOf;
    hide IntentOk, BrokerJobIdOk, DeliverTo, FenceAt, JobsOf, CancelledWith, Write;
    CancelledShows(w, j, begun);
    match step {
      case Change(j', expected, op) => WriteStaysCancelled(w, j, begun, j', expected, op);
      case Place(j', expected, fingerprint, id) =>
        WriteStaysCancelled(w, j, begun, j', expected, RecordPlaced(fingerprint, id));
      case Return(j', expected, proof) => WriteStaysCancelled(w, j, begun, j', expected, FenceTransfer(proof));
      case Settle(j', expected, s) => WriteStaysCancelled(w, j, begun, j', expected, SettleCharge);
      case _ => CancelledFrame(w, Apply(w, step), j, begun);
    }
  }

  lemma CancelledFrame(w: World, w': World, j: string, begun: seq<bool>)
    requires CancelledWith(w, j, begun) && j in w'.records && w'.records[j] == w.records[j]
    ensures CancelledWith(w', j, begun)
  {
  }

  lemma CancelledShows(w: World, j: string, begun: seq<bool>)
    requires CancelledWith(w, j, begun)
    ensures j in w.records && w.records[j].cancellation.Some?
  {
  }

  /** A cancelled job is armed only if it was, and no longer once sent. */
  lemma NotArmedAgain(w: World, step: Step, j: string)
    requires j in w.records && w.records[j].cancellation.Some? && Sane(w)
    ensures Apply(w, step).armed.Some? && Apply(w, step).armed.value.jobId == j ==>
              Apply(w, step).armed == w.armed && !step.Send?
  {
    hide Grounded, Fingerprinted, Answered, FenceAnswered, SettleEvidence, IdUsed, NewRecord, Next;
    hide IntentOk, BrokerJobIdOk, DeliverTo, FenceAt, JobsOf, TransferFingerprint, IntentDigest;
  }

  predicate SendsNow(w: World, step: Step, j: string) {
    step.Send? && w.armed.Some? && w.armed.value.jobId == j
  }

  /** How many requests for the job leave the broker in a run. */
  ghost function Sends(w: World, steps: seq<Step>, j: string): nat
    decreases |steps|
  {
    if steps == [] then 0
    else (if SendsNow(w, steps[0], j) then 1 else 0) + Sends(Apply(w, steps[0]), steps[1..], j)
  }

  /** Once a cancellation is durable, whatever happens next: it stays, nothing is reserved, no
      transfer begins, and at most the one send already past its last check goes out. */
  lemma {:induction false} CancellationWins(w: World, steps: seq<Step>, j: string, begun: seq<bool>)
    requires Sane(w) && CancelledWith(w, j, begun)
    ensures CancelledWith(Run(w, steps), j, begun)
    ensures Sends(w, steps, j) <= if w.armed.Some? && w.armed.value.jobId == j then 1 else 0
    decreases |steps|
  {
    hide Apply, Sane, CancelledWith;
    if steps != [] {
      StaysSane(w, steps[0]);
      StaysCancelled(w, steps[0], j, begun);
      CancelledShows(w, j, begun);
      NotArmedAgain(w, steps[0], j);
      CancellationWins(Apply(w, steps[0]), steps[1..], j, begun);
    }
  }

  // --------------------------------------------------------------------
  // Settlement

  /** A settling answer is the attempt's own target's, and its figures, if it carries any, were
      published after the acceptance and are the target's still, or older than them. */
  lemma SettlingFigures(w: World, j: string, s: Sample)
    requires Inv(w) && SettleEvidence(w, j, s) && w.records[j].state == Placed
    ensures var r := w.records[j]; var a := r.attempts[|r.attempts| - 1];
            && AcceptedAt(w.claims, a.targetRoot, a.key) && s.root == a.targetRoot
            && (s.published.Some? ==>
                  && s.published.value > ClaimOf(w.claims, a.targetRoot, a.key).value.at
                  && s.root in w.figures && s.published.value <= w.figures[s.root])
  {
    hide Grounded, Fingerprinted, ClaimOf, ClaimsBegun, RequestsBegun;
    var r := w.records[j];
    var n := |r.attempts| - 1;
    LastAttempt(r);
    assert Witnessed(w.claims, r.attempts[n], w.clock);
    assert SampleOk(w, s);
    var key :| AcceptedAt(w.claims, s.root, key)
               && ClaimOf(w.claims, s.root, key).value.id == r.attempts[n].targetJobId.value;
  }

  /** A charge is gone only in favour of figures newer than the acceptance. */
  ghost predicate AttemptCounted(w: World, a: Attempt) {
    a.phase == Placed && a.chargeReleasedAt.Some? ==>
      && AcceptedAt(w.claims, a.targetRoot, a.key) && a.targetRoot in w.figures
      && w.figures[a.targetRoot] > ClaimOf(w.claims, a.targetRoot, a.key).value.at
  }

  ghost predicate AllCounted(w: World) {
    forall j, i :: j in w.records && 0 <= i < |w.records[j].attempts| ==>
      AttemptCounted(w, w.records[j].attempts[i])
  }

  /** The record's target has published since it accepted the newest attempt's job. */
  ghost predicate NewerFigures(w: World, j: string)
    requires j in w.records
  {
    && w.records[j].attempts != []
    && var a := w.records[j].attempts[|w.records[j].attempts| - 1];
       && AcceptedAt(w.claims, a.targetRoot, a.key) && a.targetRoot in w.figures
       && w.figures[a.targetRoot] > ClaimOf(w.claims, a.targetRoot, a.key).value.at
  }

  /** The step releases a charge. */
  ghost predicate Releases(w: World, step: Step) {
    && step.Settle? && step.jobId in w.records && SettleEvidence(w, step.jobId, step.sample)
    && w.records[step.jobId].revision == step.expected
    && Next(w.records[step.jobId], SettleCharge, w.clock).Some?
  }

  /** A step that releases a charge uses an answer with figures, or comes after newer ones. */
  ghost predicate Covered(w: World, step: Step) {
    Releases(w, step) ==> step.sample.published.Some? || NewerFigures(w, step.jobId)
  }

  lemma WriteStaysCounted(w: World, j: string, expected: int, op: Op)
    requires Inv(w) && AllCounted(w)
    requires op.SettleCharge? && j in w.records && w.records[j].state == Placed ==> NewerFigures(w, j)
    ensures AllCounted(Write(w, j, expected, op))
  {
    hide Next, Grounded, Fingerprinted, ClaimOf, AcceptedAt, AttemptsWitnessed, SamplesOk, RequestsBegun;
    hide ClaimsBegun, UniqueIds, AttemptCounted, AttemptMoves;
    if j in w.records && w.records[j].revision == expected && Next(w.records[j], op, w.clock).Some? {
      var r := w.records[j];
      var r' := Next(r, op, w.clock).value;
      NextMoves(r, op, w.clock);
      forall i | 0 <= i < |r'.attempts| ensures AttemptCounted(w, r'.attempts[i]) {
        if i < |r.attempts| {
          if r.attempts[i].phase == Placed { PlacedIsNewest(r, i); }
          MoveStaysCounted(w, r.attempts[i], r'.attempts[i], op);
        } else {
          UnsettledCounted(w, r'.attempts[i]);
        }
      }
      var w' := Write(w, j, expected, op);
      forall k, i | k in w'.records && 0 <= i < |w'.records[k].attempts|
        ensures AttemptCounted(w', w'.records[k].attempts[i])
      {
        CountedFrame(w, w', w'.records[k].attempts[i]);
      }
    }
  }

  lemma UnsettledCounted(w: World, a: Attempt)
    requires a.phase != Placed || a.chargeReleasedAt.None?
    ensures AttemptCounted(w, a)
  {
  }

  /** Newer figures and further claims leave what is counted counted. */
  lemma CountedFrame(w: World, w': World, a: Attempt)
    requires AttemptCounted(w, a) && Grows(w.claims, w'.claims)
    requires forall root :: root in w.figures ==> root in w'.figures && w.figures[root] <= w'.figures[root]
    ensures AttemptCounted(w', a)
  {
  }

  lemma MoveStaysCounted(w: World, a: Attempt, a': Attempt, op: Op)
    requires AttemptCounted(w, a) && AttemptMoves(a, a', op, w.clock)
    requires op.SettleCharge? && a.phase == Placed ==>
      && AcceptedAt(w.claims, a.targetRoot, a.key) && a.targetRoot in w.figures
      && w.figures[a.targetRoot] > ClaimOf(w.claims, a.targetRoot, a.key).value.at
    ensures AttemptCounted(w, a')
  {
    hide ClaimOf, AcceptedAt;
  }

  lemma PlacedIsNewest(r: Record, i: nat)
    requires Grounded(r) && i < |r.attempts| && r.attempts[i].phase == Placed
    ensures i == |r.attempts| - 1 && r.state == Placed
  {
  }

  /** Such a step leaves every record as it is, or adds one without attempts, and publishes. */
  lemma OtherStepRecords(w: World, step: Step)
    requires Inv(w) && !step.Change? && !step.Place? && !step.Return? && !step.Settle?
    ensures forall j :: j in Apply(w, step).records ==>
      (j in w.records && Apply(w, step).records[j] == w.records[j]) || Apply(w, step).records[j].attempts == []
    ensures forall root :: root in w.figures ==>
      root in Apply(w, step).figures && w.figures[root] <= Apply(w, step).figures[root]
  {
    hide Grounded, Fingerprinted, AttemptsWitnessed, RequestsBegun, ClaimsBegun, UniqueIds, SampleOk;
    hide IntentOk, BrokerJobIdOk, RequestOf, JobsOf, IdUsed, DeliverTo, FenceAt;
  }

  lemma OtherStepStaysCounted(w: World, step: Step)
    requires Inv(w) && AllCounted(w)
    requires !step.Change? && !step.Place? && !step.Return? && !step.Settle?
    ensures AllCounted(Apply(w, step))
  {
    hide AttemptCounted, Inv, Apply, ClaimOf;
    var w' := Apply(w, step);
    forall root, key | ClaimOf(w.claims, root, key).Some?
      ensures ClaimOf(w'.claims, root, key) == ClaimOf(w.claims, root, key)
    {
      ClaimsStand(w, step, root, key);
    }
    OtherStepRecords(w, step);
    forall j, i | j in w'.records && 0 <= i < |w'.records[j].attempts|
      ensures AttemptCounted(w', w'.records[j].attempts[i])
    {
      CountedFrame(w, w', w'.records[j].attempts[i]);
    }
  }

  /** Whatever a step does, it leaves all that is accepted counted if and only if it is covered. */
  lemma StaysCountedIffCovered(w: World, step: Step)
    requires Inv(w) && AllCounted(w)
    ensures AllCounted(Apply(w, step)) <==> Covered(w, step)
  {
    hide AllCounted, Inv, Write, Answered, FenceAnswered, Releases, NewerFigures;
    match step {
      case Change(j, expected, op) => if !NeedsEvidence(op) { WriteStaysCounted(w, j, expected, op); }
      case Place(j, expected, fingerprint, id) => WriteStaysCounted(w, j, expected, RecordPlaced(fingerprint, id));
      case Return(j, expected, proof) => WriteStaysCounted(w, j, expected, FenceTransfer(proof));
      case Settle(j, expected, s) =>
        if Releases(w, step) { SettleCountsIff(w, j, expected, s); } else { SettleRefused(w, j, expected, s); }
      case _ => OtherStepStaysCounted(w, step);
    }
    if !step.Settle? { ReleasesSettles(w, step); }
  }

  lemma ReleasesSettles(w: World, step: Step)
    ensures Releases(w, step) ==> step.Settle?
  {
  }

  lemma SettleRefused(w: World, j: string, expected: int, s: Sample)
    requires !Releases(w, Settle(j, expected, s))
    ensures Apply(w, Settle(j, expected, s)) == w
  {
    hide SettleEvidence, Next;
  }

  /** After a settlement the job is counted if its answer carried figures, or newer ones were
      published since, and not otherwise. */
  lemma SettleCountsIff(w: World, j: string, expected: int, s: Sample)
    requires Inv(w) && AllCounted(w) && Releases(w, Settle(j, expected, s))
    ensures AllCounted(Apply(w, Settle(j, expected, s))) <==> s.published.Some? || NewerFigures(w, j)
  {
    hide AllCounted, Write, Grounded, Fingerprinted, AttemptsWitnessed, RequestsBegun, ClaimsBegun, UniqueIds;
    hide SamplesOk, ClaimOf, SettleEvidence, Next;
    var r := w.records[j];
    SettledPlaced(r, w.clock);
    SettlingFigures(w, j, s);
    if s.published.Some? || NewerFigures(w, j) {
      WriteStaysCounted(w, j, expected, SettleCharge);
    } else {
      RecordGrounded(w, j);
      Uncounted(w, j, expected, s);
    }
  }

  lemma RecordGrounded(w: World, j: string)
    requires Inv(w) && j in w.records
    ensures Grounded(w.records[j])
  {
    hide Grounded;
  }

  lemma SettledPlaced(r: Record, now: Time)
    requires Next(r, SettleCharge, now).Some?
    ensures r.state == Placed && r.attempts != [] && r.attempts[|r.attempts| - 1].chargeReleasedAt.None?
  {
  }

  lemma Uncounted(w: World, j: string, expected: int, s: Sample)
    requires Releases(w, Settle(j, expected, s)) && !NewerFigures(w, j) && Grounded(w.records[j])
    ensures !AllCounted(Apply(w, Settle(j, expected, s)))
  {
    hide ClaimOf, Next, Grounded, SettleEvidence, NewerFigures;
    var r := w.records[j];
    SettledPlaced(r, w.clock);
    SettleWrites(r, w.clock);
    LastAttempt(r);
    var w' := Apply(w, Settle(j, expected, s));
    assert w' == w.(records := w.records[j := Next(r, SettleCharge, w.clock).value]);
    var a := w'.records[j].attempts[|r.attempts| - 1];
    assert !AttemptCounted(w', a) by { NotNewer(w, j, a, w'); }
  }

  lemma NotNewer(w: World, j: string, a: Attempt, w': World)
    requires j in w.records && w.records[j].attempts != [] && !NewerFigures(w, j)
    requires w'.claims == w.claims && w'.figures == w.figures && a.phase == Placed && a.chargeReleasedAt.Some?
    requires var was := w.records[j].attempts[|w.records[j].attempts| - 1];
             a.targetRoot == was.targetRoot && a.key == was.key
    ensures !AttemptCounted(w', a)
  {
  }

  /** The run's first `n` steps leave all that is accepted counted, each of them. */
  ghost predicate CountedUpTo(steps: seq<Step>, n: nat)
    requires n <= |steps|
  {
    forall k :: 0 <= k <= n ==> AllCounted(Run(START, steps[..k]))
  }

  ghost predicate CoveredUpTo(steps: seq<Step>, n: nat)
    requires n <= |steps|
  {
    forall k :: 0 <= k < n ==> Covered(Run(START, steps[..k]), steps[k])
  }

  /** Exactly the runs all of whose settlements are covered keep every accepted job counted at
      every moment. */
  lemma {:induction false} CountedIffCovered(steps: seq<Step>, n: nat)
    requires AllLandHome(steps) && n <= |steps|
    ensures Inv(Run(START, steps[..n]))
    ensures CountedUpTo(steps, n) <==> CoveredUpTo(steps, n)
    decreases n
  {
    hide Inv, Apply, AllCounted, Run, Covered, LandsHome;
    if n == 0 {
      NothingYet(steps);
    } else {
      CountedIffCovered(steps, n - 1);
      var w := Run(START, steps[..n - 1]);
      assert steps[..n] == steps[..n - 1] + [steps[n - 1]];
      RunAppend(START, steps[..n - 1], steps[n - 1]);
      StepKeeps(w, steps[n - 1]);
      if CountedUpTo(steps, n - 1) { StaysCountedIffCovered(w, steps[n - 1]); }
      assert CountedUpTo(steps, n) <==> CountedUpTo(steps, n - 1) && AllCounted(Run(START, steps[..n]));
      assert CoveredUpTo(steps, n) <==> CoveredUpTo(steps, n - 1) && Covered(w, steps[n - 1]);
    }
  }

  lemma NothingYet(steps: seq<Step>)
    ensures Run(START, steps[..0]) == START && Inv(START) && AllCounted(START)
  {
    StartInv();
  }

  /** In every run whose settlements are covered, an accepted job is counted: by its record's
      charge, or by figures its target published after accepting it. */
  lemma AcceptedIsCounted(steps: seq<Step>, key: string, root: string)
    requires AllLandHome(steps) && CoveredUpTo(steps, |steps|)
    requires AcceptedAt(Run(START, steps).claims, root, key)
    ensures var w := Run(START, steps);
            && key in w.records && w.records[key].attempts != []
            && var a := w.records[key].attempts[|w.records[key].attempts| - 1];
               && a.targetRoot == root
               && (a.chargeReleasedAt.None?
                   || (root in w.figures && w.figures[root] > ClaimOf(w.claims, root, key).value.at))
  {
    hide Run, Inv, ClaimOf, AcceptedAt, Covered;
    CountedIffCovered(steps, |steps|);
    assert steps[..|steps|] == steps;
    var w := Run(START, steps);
    AcceptedIsNewest(w, key, root);
    var n := |w.records[key].attempts| - 1;
    assert AttemptCounted(w, w.records[key].attempts[n]);
    NewestUnreleased(w, key);
  }

  lemma NewestUnreleased(w: World, key: string)
    requires Inv(w) && key in w.records && w.records[key].attempts != []
    ensures var a := w.records[key].attempts[|w.records[key].attempts| - 1];
            a.phase == Transferring ==> a.chargeReleasedAt.None?
  {
    hide IntentOk, BrokerJobIdOk, BlockersOk, AttemptGrounded;
    var r := w.records[key];
    assert AttemptConsistent(r.attempts[|r.attempts| - 1]);
  }

  /** The condition is needed: an answer without figures, from a target whose daemon never
      published any, settles a placed job that nothing then counts. */
  lemma FigurelessSettlementUncounts(w: World, j: string, a: Attempt, s: Sample)
    requires Inv(w) && Newest(w, j, a) && w.records[j].state == Placed && a.chargeReleasedAt.None?
    requires a.acceptedAt.Some? && a.acceptedAt.value < w.clock && a.targetRoot !in w.figures
    requires s == Sample(a.targetRoot, w.clock, w.clock, None, JobsOf(w.claims, a.targetRoot))
    ensures var steps := [Collect(s.root, s.start, s.at, false), Settle(j, w.records[j].revision, s)];
            var w' := Run(w, steps);
            && Newest(w', j, a.(chargeReleasedAt := Some(w.clock)))
            && s.root !in w'.figures && AcceptedAt(w'.claims, s.root, j)
  {
    hide Grounded, Fingerprinted, RequestsBegun, ClaimsBegun, UniqueIds, Run, Next, ClaimOf, JobsOf, SamplesOk;
    hide Answered, FenceAnswered, IdUsed, DeliverTo, FenceAt, RequestOf, NewRecord, IntentOk, BrokerJobIdOk;
    var collect, settle := Collect(s.root, s.start, s.at, false), Settle(j, w.records[j].revision, s);
    RunTwo(w, collect, settle);
    var r := w.records[j];
    var n := |r.attempts| - 1;
    LastAttempt(r);
    assert Witnessed(w.claims, r.attempts[n], w.clock);
    KeyOf(r, n);
    ListedIfAccepted(w.claims, s.root, j);
    assert SettleEvidence(Apply(w, collect), j, s);
    SettleWrites(r, w.clock);
  }

  ghost predicate Newest(w: World, j: string, a: Attempt) {
    j in w.records && w.records[j].attempts != [] && w.records[j].attempts[|w.records[j].attempts| - 1] == a
  }

  lemma ListedIfAccepted(claims: Claims, root: string, key: string)
    requires AcceptedAt(claims, root, key)
    ensures ClaimOf(claims, root, key).value.id in JobsOf(claims, root)
  {
  }

  lemma SettleWrites(r: Record, now: Time)
    requires r.state == Placed && r.attempts != [] && r.attempts[|r.attempts| - 1].chargeReleasedAt.None?
    ensures Next(r, SettleCharge, now).Some?
    ensures var r' := Next(r, SettleCharge, now).value;
            r'.attempts == r.attempts[..|r.attempts| - 1]
                           + [r.attempts[|r.attempts| - 1].(chargeReleasedAt := Some(now))]
  {
  }
}
