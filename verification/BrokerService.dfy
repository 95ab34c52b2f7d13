/** The broker role's own commands: cancelling a job, settling a transfer in doubt, and a pass
    wired to the evidence its targets gave (src/vq/broker_service.py:77-292). */
module BrokerService {
  import opened Common
  import opened JsonModel
  import opened BrokerRecord
  import opened BrokerCharges
  import opened BrokerDecision
  import opened BrokerProtocol
  import opened BrokerPass
  import opened BrokerRound
  import BrokerJson
  import StringOrder

  // --------------------------------------------------------------------
  // Cancellation (src/vq/broker_service.py:77-104)

  /** Anything at all happens in the fleet, a pass included: a cancellation takes no pass lock. */
  method Anything(b: Broker, j: string)
    requires b.Valid()
    modifies b
    ensures b.Valid() && old(b.trace) <= b.trace
    ensures j in old(b.world).records ==>
      && j in b.world.records
      && (b.world.records[j] == old(b.world).records[j]
          || b.world.records[j].revision > old(b.world).records[j].revision)
  {
    hide Apply, Sane, Run;
    var turns: nat := *;
    while turns > 0
      invariant b.Valid() && old(b.trace) <= b.trace
      invariant j in old(b.world).records ==>
        && j in b.world.records
        && (b.world.records[j] == old(b.world).records[j]
            || b.world.records[j].revision > old(b.world).records[j].revision)
    {
      var step: Step := *;
      if j in b.world.records { StepRevision(b.world, step, j); }
      b.Do(step);
      turns := turns - 1;
    }
  }

  const CANCEL_TRIES := 3

  /** Record a cancellation, whatever the passes do meanwhile. Once this returns a record, no run
      that follows reserves for the job or begins a transfer of it, and at most the one send
      already past its last check goes out. It gives up only for a job it cannot find, a blank
      reason, or three writers that each came first. */
  method Cancel(b: Broker, j: string, reason: string) returns (r: Option<Record>)
    requires b.Valid()
    modifies b
    ensures b.Valid() && old(b.trace) <= b.trace
    ensures r.Some? ==>
      && j in b.world.records && b.world.records[j] == r.value && r.value.cancellation.Some?
      && (forall later: seq<Step> :: Sends(b.world, later, j) <= Armed(b.world, j))
      && (forall later: seq<Step> :: CancelledWith(Run(b.world, later), j, BegunIn(r.value)))
    ensures r.None? && ParseReason(reason).Some? && j in old(b.world).records ==>
      j in b.world.records && b.world.records[j].revision >= old(b.world).records[j].revision + CANCEL_TRIES
  {
    hide Sane, Run, Next, Sends, CancelledWith;
    r := None;
    Anything(b, j);
    for n := 0 to CANCEL_TRIES
      invariant b.Valid() && old(b.trace) <= b.trace && r.None?
      invariant j in old(b.world).records ==> j in b.world.records
      invariant j in old(b.world).records && ParseReason(reason).Some? ==>
        b.world.records[j].revision >= old(b.world).records[j].revision + n
    {
      if j !in b.world.records { return; }
      var current := b.world.records[j];
      if current.cancellation.Some? || current.state == Cancelled {
        CancelledHas(b.world, j);
        CancelHolds(b.world, j);
        return Some(current);
      }
      Anything(b, j);
      ghost var w := b.world;
      r := b.Update(j, current.revision, RequestCancel(reason));
      if r.Some? {
        CancelWrites(w.records[j], reason, w.clock);
        CancelHolds(b.world, j);
        return;
      }
      if ParseReason(reason).None? { return; }
      CancelMissed(w, j, current, reason);
    }
  }

  /** The sends that are past their last check. */
  ghost function Armed(w: World, j: string): nat {
    if w.armed.Some? && w.armed.value.jobId == j then 1 else 0
  }

  ghost function BegunIn(r: Record): seq<bool> {
    seq(|r.attempts|, i requires 0 <= i < |r.attempts| => r.attempts[i].fingerprint.Some?)
  }

  lemma CancelledHas(w: World, j: string)
    requires Sane(w) && j in w.records && (w.records[j].cancellation.Some? || w.records[j].state == Cancelled)
    ensures w.records[j].cancellation.Some?
  {
  }

  lemma CancelWrites(r: Record, reason: string, now: Time)
    requires Next(r, RequestCancel(reason), now).Some?
    ensures Next(r, RequestCancel(reason), now).value.cancellation.Some?
  {
  }

  /** A refused cancellation of an uncancelled job means another writer came first. */
  lemma CancelMissed(w: World, j: string, current: Record, reason: string)
    requires j in w.records && ParseReason(reason).Some? && current.cancellation.None? && current.state != Cancelled
    requires w.records[j] == current || w.records[j].revision > current.revision
    requires Attempted(w, j, current.revision, RequestCancel(reason)).None?
    ensures w.records[j].revision > current.revision
  {
  }

  lemma CancelHolds(w: World, j: string)
    requires Sane(w) && j in w.records && w.records[j].cancellation.Some?
    ensures forall later: seq<Step> :: Sends(w, later, j) <= Armed(w, j)
    ensures forall later: seq<Step> :: CancelledWith(Run(w, later), j, BegunIn(w.records[j]))
  {
    forall later: seq<Step>
      ensures Sends(w, later, j) <= Armed(w, j) && CancelledWith(Run(w, later), j, BegunIn(w.records[j]))
    {
      hide Sends, Run, Sane;
      CancellationWins(w, later, j, BegunIn(w.records[j]));
    }
  }

  // --------------------------------------------------------------------
  // Reconciliation (src/vq/broker_service.py:148-204)

  // In two parts: the proofs look at the first word only.
  const FENCE_PROOF := "fenced" + " key"
  const FENCE_CANCEL := "cancelled" + " after its transfer was fenced"

  lemma ReturnWrites(r: Record, now: Time)
    requires Grounded(r) && r.state == Transferring
    ensures var next := Next(r, FenceTransfer(FENCE_PROOF), now);
            && next.Some? && next.value.state == Returned && next.value.jobId == r.jobId
            && |next.value.attempts| == |r.attempts| > 0
            && next.value.attempts[|r.attempts| - 1].targetRoot == r.attempts[|r.attempts| - 1].targetRoot
            && next.value.attempts[|r.attempts| - 1].key == r.attempts[|r.attempts| - 1].key
  {
    hide AttemptsGrounded, IntentOk, BrokerJobIdOk, BlockersOk;
    LastAttempt(r);
    assert FENCE_PROOF[0] == "fenced"[0];
    NotBlank(FENCE_PROOF);
  }

  /** The newest attempt's claim at its own target. */
  ghost function NewestClaim(w: World, j: string): Option<Claim> {
    if j in w.records && w.records[j].attempts != [] then
      var a := w.records[j].attempts[|w.records[j].attempts| - 1];
      ClaimOf(w.claims, a.targetRoot, a.key)
    else None
  }

  /** The job was at some moment no transfer in doubt. */
  ghost predicate NotInDoubtSince(from: nat, trace: seq<Step>, j: string) {
    exists at :: from <= at <= |trace| && NotInDoubt(Run(START, trace[..at]), j)
  }

  ghost predicate NotInDoubt(w: World, j: string) {
    j !in w.records || w.records[j].state != Transferring
  }

  /** Why a transfer in doubt, read as this record, is not settled: no answer from the recorded
      root, or one that names no job, and then its record is as it was; or it was cancelled since. */
  ghost predicate Unsettled(read: Record, w: World, reported: Option<string>) {
    && read.state == Transferring && read.jobId in w.records
    && var now := w.records[read.jobId];
       || (now == read && reported != Some(Root(read)))
       || (&& now == read && NewestClaim(w, read.jobId).Some? && NewestClaim(w, read.jobId).value.Accepted?
           && !TargetJobIdOk(NewestClaim(w, read.jobId).value.id))
       || (read.cancellation.None? && now.cancellation.Some?)
  }

  /** The record says what the target's claim decided. */
  ghost predicate Concluded(r: Record, c: Claim, cancel: bool) {
    if r.state == Placed then
      c.Accepted? && r.attempts != [] && r.attempts[|r.attempts| - 1].targetJobId == Some(c.id)
    else
      c.Fenced? && r.state in {Held, Cancelled} && (cancel ==> r.state == Cancelled)
  }

  /** Settle a transfer in doubt from its target's own fence, taken at the root the target reports;
      no report is no readable answer. It sends nothing. Either the job the target accepted is
      named, or the key is refused there for ever and the job is held again or cancelled. It gives
      up only where no transfer is in doubt or for one of the reasons above. */
  method Reconcile(b: Broker, j: string, cancel: bool, reported: Option<string>)
    returns (r: Option<Record>, ghost read: Option<Record>)
    requires b.Valid()
    modifies b
    ensures b.Valid() && old(b.trace) <= b.trace && NoSend(old(b.trace), b.trace)
    ensures read.Some? ==> read.value.jobId == j && WasStored(|old(b.trace)|, b.trace, read.value)
    ensures read.None? ==> r.None? && NotInDoubtSince(|old(b.trace)|, b.trace, j)
    ensures read.Some? && r.None? ==> Unsettled(read.value, b.world, reported)
    ensures r.Some? ==>
      && read.Some? && read.value.state == Transferring && reported == Some(Root(read.value))
      && |r.value.attempts| == |read.value.attempts|
    ensures r.Some? ==>
      && j in b.world.records && b.world.records[j] == r.value && NewestClaim(b.world, j).Some?
      && Concluded(r.value, NewestClaim(b.world, j).value, cancel)
  {
    hide Sane, Run, Next, Grounded, ClaimOf, Answered, FenceAnswered, SettleEvidence, IdUsed, SameCharges, Grows;
    hide TransferFingerprint, JobsOf, DeliverTo, FenceAt, TargetJobIdOk, WasStored, NotInDoubtSince;
    r, read := None, None;
    b.Others();
    if j !in b.world.records || b.world.records[j].state != Transferring {
      DoubtfulNow(|old(b.trace)|, b.trace, b.world, j);
      return;
    }
    var record := b.world.records[j];
    Keyed(b.world, j);
    read := Some(record);
    ghost var at := b.trace;
    StoredNow(|old(b.trace)|, at, b.world, record);
    r := AskFence(b, record, cancel, reported);
    StoredLater(|old(b.trace)|, at, b.trace, record);
  }

  lemma DoubtfulNow(from: nat, trace: seq<Step>, w: World, j: string)
    requires from <= |trace| && w == Run(START, trace) && NotInDoubt(w, j)
    ensures NotInDoubtSince(from, trace, j)
  {
    hide Run, NotInDoubt;
    assert trace[..|trace|] == trace;
  }

  lemma StoredLater(from: nat, trace: seq<Step>, after: seq<Step>, r: Record)
    requires trace <= after && WasStored(from, trace, r)
    ensures WasStored(from, after, r)
  {
    hide Run, WasStored;
    StoredStands(from, from, trace, after, [r]);
    assert WasStored(from, after, [r][0]);
  }

  /** Ask the target for its fence and act on what it answers. */
  method AskFence(b: Broker, record: Record, cancel: bool, reported: Option<string>) returns (r: Option<Record>)
    requires b.Valid() && record.jobId in b.world.records && b.world.records[record.jobId] == record
    requires record.state == Transferring
    modifies b
    ensures b.Valid() && old(b.trace) <= b.trace && NoSend(old(b.trace), b.trace)
    ensures r.None? ==> Unsettled(record, b.world, reported)
    ensures r.Some? ==>
      && record.jobId in b.world.records && b.world.records[record.jobId] == r.value
      && NewestClaim(b.world, record.jobId).Some?
      && reported == Some(Root(record)) && |r.value.attempts| == |record.attempts|
      && Concluded(r.value, NewestClaim(b.world, record.jobId).value, cancel)
  {
    hide Sane, Run, Next, Grounded, ClaimOf, Answered, FenceAnswered, SettleEvidence, IdUsed, SameCharges, Grows;
    hide TransferFingerprint, JobsOf, DeliverTo, FenceAt, TargetJobIdOk;
    r := None;
    var j := record.jobId;
    Keyed(b.world, j);
    ghost var open := OpenAttempt(record);
    var a := record.attempts[|record.attempts| - 1];
    if reported.None? {
      // The request may have arrived, anywhere, before its answer was lost.
      var arrived: bool, root: string := *, *;
      if arrived { b.Do(Fence(root, a.key)); }
      return;
    }
    label fence:
    b.Do(Fence(reported.value, a.key));
    if reported.value != a.targetRoot { return; }
    FenceClaims(old@fence(b.world).claims, a.targetRoot, a.key);
    var c := ClaimOf(b.world.claims, a.targetRoot, a.key).value;
    if c.Fenced? {
      r := FinishFenced(b, record, cancel);
    } else if TargetJobIdOk(c.id) {
      r := NameAccepted(b, record, c.id);
    }
  }

  lemma FenceClaims(claims: Claims, root: string, key: string)
    ensures ClaimOf(FenceAt(claims, root, key), root, key).Some?
  {
  }

  /** A cancellation was recorded since the record was read. */
  ghost predicate CancelledSince(read: Record, w: World) {
    read.cancellation.None? && read.jobId in w.records && w.records[read.jobId].cancellation.Some?
  }

  method NameAccepted(b: Broker, record: Record, id: string) returns (r: Option<Record>)
    requires b.Valid() && record.jobId in b.world.records && b.world.records[record.jobId] == record
    requires record.state == Transferring
    requires record.attempts != [] && record.attempts[|record.attempts| - 1].fingerprint.Some?
    requires NewestClaim(b.world, record.jobId).Some? && NewestClaim(b.world, record.jobId).value.Accepted?
    requires NewestClaim(b.world, record.jobId).value.id == id && TargetJobIdOk(id)
    modifies b
    ensures b.Valid() && old(b.trace) <= b.trace && NoSend(old(b.trace), b.trace)
    ensures r.Some? ==>
      && record.jobId in b.world.records && b.world.records[record.jobId] == r.value
      && NewestClaim(b.world, record.jobId) == old(NewestClaim(b.world, record.jobId))
      && r.value.state == Placed && |r.value.attempts| == |record.attempts|
      && r.value.attempts[|r.value.attempts| - 1].targetJobId == Some(id)
    ensures r.None? ==> CancelledSince(record, b.world)
  {
    hide Sane, Run, Next, Grounded, ClaimOf, Answered, SameCharges, TargetJobIdOk;
    var j := record.jobId;
    var fingerprint := record.attempts[|record.attempts| - 1].fingerprint.value;
    AnswerHeard(b.world, j, record.attempts[|record.attempts| - 1], id);
    ghost var w := b.world;
    b.Others();
    AnsweredStands(w, b.world, j, fingerprint, id);
    ghost var w' := b.world;
    r := b.Update(j, record.revision, RecordPlaced(fingerprint, id));
    ReadyWrites(record, RecordPlaced(fingerprint, id), w'.clock);
    if r.Some? { PlaceWrites(w'.records[j], fingerprint, id, w'.clock); }
  }

  lemma PlaceWrites(r: Record, fingerprint: Preimage, id: string, now: Time)
    requires Next(r, RecordPlaced(fingerprint, id), now).Some?
    ensures var r' := Next(r, RecordPlaced(fingerprint, id), now).value;
            && r'.state == Placed && |r'.attempts| == |r.attempts| > 0
            && r'.attempts[|r.attempts| - 1].targetJobId == Some(id)
            && r'.attempts[|r.attempts| - 1].targetRoot == r.attempts[|r.attempts| - 1].targetRoot
            && r'.attempts[|r.attempts| - 1].key == r.attempts[|r.attempts| - 1].key
  {
    hide TargetJobIdOk;
  }

  method FinishFenced(b: Broker, record: Record, cancel: bool) returns (r: Option<Record>)
    requires b.Valid() && record.jobId in b.world.records && b.world.records[record.jobId] == record
    requires record.state == Transferring && NewestClaim(b.world, record.jobId) == Some(Fenced)
    modifies b
    ensures b.Valid() && old(b.trace) <= b.trace && NoSend(old(b.trace), b.trace)
    ensures r.Some? ==>
      && record.jobId in b.world.records && b.world.records[record.jobId] == r.value
      && NewestClaim(b.world, record.jobId) == Some(Fenced) && |r.value.attempts| == |record.attempts|
      && r.value.state in {Held, Cancelled} && (cancel ==> r.value.state == Cancelled)
    ensures r.None? ==> CancelledSince(record, b.world)
  {
    hide Sane, Run, Next, Grounded, ClaimOf, SameCharges;
    var j := record.jobId;
    b.Others();
    Keyed(b.world, j);
    ReturnWrites(b.world.records[j], b.world.clock);
    FenceKeepsCancellation(b.world.records[j], b.world.clock);
    r := b.ReturnFenced(j, record.revision, FENCE_PROOF);
    if r.None? { return; }
    ghost var own;
    r, own := CancelAndResume(b, r.value, cancel);
  }

  lemma FenceKeepsCancellation(r: Record, now: Time)
    requires Next(r, FenceTransfer(FENCE_PROOF), now).Some?
    ensures Next(r, FenceTransfer(FENCE_PROOF), now).value.cancellation == r.cancellation
  {
    hide ParseReason;
  }

  /** A returned record is taken on whenever it is as it was read. */
  lemma IdleAccepts(r: Record, now: Time)
    requires r.state == Returned
    ensures Next(r, ResumeHolding, now).Some?
    ensures r.cancellation.None? ==> Next(r, RequestCancel(FENCE_CANCEL), now).Some?
  {
    assert FENCE_CANCEL[0] == "cancelled"[0];
    NotBlank(FENCE_CANCEL);
  }

  lemma IdleWrites(r: Record, op: Op, now: Time)
    requires Next(r, op, now).Some? && (op.RequestCancel? || op.ResumeHolding?) && r.state == Returned
    ensures var r' := Next(r, op, now).value;
            && r'.attempts == r.attempts && (op.RequestCancel? ==> r'.state == Returned && r'.cancellation.Some?)
            && (op.ResumeHolding? ==> r'.state == (if r.cancellation.Some? then Cancelled else Held))
  {
    hide ParseReason;
  }

  /** Cancel the returned job if asked to, and take it on. `own` is whether the cancellation was
      this command's own; then nothing can come in between any more. */
  method CancelAndResume(b: Broker, returned: Record, cancel: bool) returns (r: Option<Record>, ghost own: bool)
    requires b.Valid() && returned.jobId in b.world.records && b.world.records[returned.jobId] == returned
    requires returned.state == Returned
    modifies b
    ensures b.Valid() && old(b.trace) <= b.trace && NoSend(old(b.trace), b.trace)
    ensures r.Some? ==>
      && returned.jobId in b.world.records && b.world.records[returned.jobId] == r.value
      && r.value.attempts == returned.attempts && Grows(old(b.world).claims, b.world.claims)
      && r.value.state in {Held, Cancelled} && (cancel ==> r.value.state == Cancelled)
    ensures r.None? ==> !own && CancelledSince(returned, b.world)
    ensures r.Some? ==> (own <==> cancel && returned.cancellation.None?)
  {
    hide Sane, Run, Next, Grounded, ClaimOf, OnlyMoved;
    own := false;
    var j := returned.jobId;
    var revision := returned.revision;
    ghost var start := b.world;
    OnlyMovedHere(start, j);
    Pause(b, j, start);
    if cancel && returned.cancellation.None? {
      ghost var w := b.world;
      IdleAccepts(returned, w.clock);
      r := b.Update(j, revision, RequestCancel(FENCE_CANCEL));
      if r.None? { return; }
      IdleWrites(w.records[j], RequestCancel(FENCE_CANCEL), w.clock);
      revision, own := r.value.revision, true;
      OnlyMovedHere(b.world, j);
      Pause(b, j, b.world);
    }
    ghost var w := b.world;
    IdleAccepts(w.records[j], w.clock);
    r := b.Update(j, revision, ResumeHolding);
    if r.Some? { IdleWrites(w.records[j], ResumeHolding, w.clock); }
  }

  // --------------------------------------------------------------------
  // A pass and its evidence (src/vq/broker_service.py:207-275)

  /** What one target answered. A lane is a scheduler of its own beside the local one. */
  datatype Found = Found(snapshot: Snapshot, root: Option<string>, lane: bool, jobs: Sample) {
    function Authority(): string
      requires root.Some?
    {
      root.value + if lane then ":" + snapshot.host else ""
    }
  }

  predicate Named(f: Found, targets: seq<string>) {
    f.snapshot.host in targets && f.root.Some?
  }

  /** A target that answers for this state authority: its root, or a lane's own beside it. */
  ghost predicate AnswersFor(f: Found, targets: seq<string>, authority: string) {
    && f.snapshot.host in targets
    && exists root :: f.root == Some(root) && authority == if f.lane then root + ":" + f.snapshot.host else root
  }

  lemma AuthorityMeans(f: Found, targets: seq<string>, authority: string)
    ensures AnswersFor(f, targets, authority) <==> Named(f, targets) && f.Authority() == authority
  {
    if f.root.Some? { assert f.root == Some(f.root.value) && f.root.value + "" == f.root.value; }
  }

  ghost predicate DistinctFound(found: seq<Found>) {
    forall i, k :: 0 <= i < k < |found| ==> found[i].snapshot.host != found[k].snapshot.host
  }

  /** The targets that answer for an authority, in the order they were asked. */
  ghost function HostsAt(found: seq<Found>, targets: seq<string>, authority: string): seq<string> {
    if found == [] then []
    else
      var last := found[|found| - 1];
      HostsAt(found[..|found| - 1], targets, authority) + HostOf(last, targets, authority)
  }

  ghost function HostOf(f: Found, targets: seq<string>, authority: string): seq<string> {
    if AnswersFor(f, targets, authority) then [f.snapshot.host] else []
  }

  lemma NoHosts(found: seq<Found>, targets: seq<string>)
    ensures forall a :: HostsAt(found[..0], targets, a) == []
  {
  }

  lemma HostsAtNext(found: seq<Found>, targets: seq<string>, authority: string, n: nat)
    requires n < |found|
    ensures HostsAt(found[..n + 1], targets, authority)
            == HostsAt(found[..n], targets, authority) + HostOf(found[n], targets, authority)
  {
    assert found[..n + 1][..n] == found[..n];
  }

  lemma {:induction false} HostsAtHas(found: seq<Found>, targets: seq<string>, authority: string, i: nat)
    requires i < |found| && AnswersFor(found[i], targets, authority)
    ensures found[i].snapshot.host in HostsAt(found, targets, authority)
  {
    if i < |found| - 1 { HostsAtHas(found[..|found| - 1], targets, authority, i); }
  }

  lemma {:induction false} HostsAtOnly(found: seq<Found>, targets: seq<string>, authority: string, k: nat)
    returns (i: nat)
    requires k < |HostsAt(found, targets, authority)|
    ensures i < |found| && AnswersFor(found[i], targets, authority)
    ensures found[i].snapshot.host == HostsAt(found, targets, authority)[k]
    ensures k > 0 ==> exists m: nat :: m < i && AnswersFor(found[m], targets, authority)
  {
    var rest := found[..|found| - 1];
    var hosts := HostsAt(rest, targets, authority);
    if k < |hosts| {
      i := HostsAtOnly(rest, targets, authority, k);
    } else {
      i := |found| - 1;
      if k > 0 {
        var m := HostsAtOnly(rest, targets, authority, k - 1);
        assert AnswersFor(found[m], targets, authority);
      }
    }
  }

  ghost predicate Twin(found: seq<Found>, targets: seq<string>, i: nat, k: nat)
    requires i < |found| && k < |found|
  {
    i != k && exists a :: AnswersFor(found[i], targets, a) && AnswersFor(found[k], targets, a)
  }

  ghost predicate IsShared(found: seq<Found>, targets: seq<string>, shared: set<string>) {
    forall i: nat :: i < |found| ==>
      (found[i].snapshot.host in shared <==> exists k: nat :: k < |found| && Twin(found, targets, i, k))
  }

  /** The targets that are one of several names for a state authority, and no others. */
  method SharedAuthorities(found: seq<Found>, targets: seq<string>) returns (shared: set<string>)
    requires DistinctFound(found)
    ensures IsShared(found, targets, shared)
  {
    hide HostsAt, Twin;
    var roots: map<string, seq<string>> := map[];
    NoHosts(found, targets);
    for n := 0 to |found|
      invariant forall a :: a in roots ==> roots[a] == HostsAt(found[..n], targets, a)
      invariant forall a :: a !in roots ==> HostsAt(found[..n], targets, a) == []
    {
      forall a
        ensures HostsAt(found[..n + 1], targets, a) == HostsAt(found[..n], targets, a) + HostOf(found[n], targets, a)
      {
        HostsAtNext(found, targets, a, n);
        AuthorityMeans(found[n], targets, a);
      }
      if Named(found[n], targets) {
        var a := found[n].Authority();
        roots := roots[a := (if a in roots then roots[a] else []) + [found[n].snapshot.host]];
      }
    }
    assert found[..|found|] == found;
    shared := set a, h | a in roots && |roots[a]| > 1 && h in roots[a] :: h;
    forall i: nat | i < |found|
      ensures found[i].snapshot.host in shared <==> exists k: nat :: k < |found| && Twin(found, targets, i, k)
    {
      SharedIff(found, targets, roots, shared, i);
    }
  }

  ghost predicate Several(found: seq<Found>, targets: seq<string>, authority: string, host: string) {
    |HostsAt(found, targets, authority)| > 1 && host in HostsAt(found, targets, authority)
  }

  lemma SharedIff(found: seq<Found>, targets: seq<string>, roots: map<string, seq<string>>, shared: set<string>, i: nat)
    requires DistinctFound(found) && i < |found|
    requires forall a :: a in roots ==> roots[a] == HostsAt(found, targets, a)
    requires forall a :: a !in roots ==> HostsAt(found, targets, a) == []
    requires shared == set a, h | a in roots && |roots[a]| > 1 && h in roots[a] :: h
    ensures found[i].snapshot.host in shared <==> exists k: nat :: k < |found| && Twin(found, targets, i, k)
  {
    hide HostsAt;
    var host := found[i].snapshot.host;
    if host in shared {
      var a :| a in roots && |roots[a]| > 1 && host in roots[a];
      var k := SeveralTwin(found, targets, a, i);
    }
    if k: nat :| k < |found| && Twin(found, targets, i, k) {
      var a :| AnswersFor(found[i], targets, a) && AnswersFor(found[k], targets, a);
      HostsAtHas(found, targets, a, i);
      HostsAtHas(found, targets, a, k);
      assert host != found[k].snapshot.host;
      assert a in roots;
    }
  }

  lemma SeveralTwin(found: seq<Found>, targets: seq<string>, authority: string, i: nat) returns (k: nat)
    requires DistinctFound(found) && i < |found| && Several(found, targets, authority, found[i].snapshot.host)
    ensures k < |found| && Twin(found, targets, i, k)
  {
    hide HostsAt;
    var hosts := HostsAt(found, targets, authority);
    var at :| 0 <= at < |hosts| && hosts[at] == found[i].snapshot.host;
    var own := HostsAtOnly(found, targets, authority, at);
    assert own == i;
    if at > 0 {
      k :| k < i && AnswersFor(found[k], targets, authority);
    } else {
      k := HostsAtOnly(found, targets, authority, 1);
      if k == i {
        var m: nat :| m < k && AnswersFor(found[m], targets, authority);
        k := m;
      }
    }
  }

  /** Two reservations on different hosts are with different authorities. */
  ghost predicate Apart(found: seq<Found>, targets: seq<string>, one: Op, other: Op)
    requires one.Reserve? && other.Reserve?
  {
    one.snapshot.host != other.snapshot.host ==>
      exists i: nat, k: nat :: i < |found| && k < |found| && Stands(found[i], one) && Stands(found[k], other)
                               && forall a :: !(AnswersFor(found[i], targets, a) && AnswersFor(found[k], targets, a))
  }

  ghost predicate Stands(f: Found, op: Op)
    requires op.Reserve?
  {
    f.snapshot.host == op.snapshot.host && f.root == Some(op.root)
  }

  ghost predicate AllApart(found: seq<Found>, targets: seq<string>, from: nat, trace: seq<Step>) {
    forall t, u :: from <= t < |trace| && from <= u < |trace| && IsReserve(trace[t]) && IsReserve(trace[u]) ==>
      Apart(found, targets, trace[t].op, trace[u].op)
  }

  function RootOf(found: seq<Found>, host: string): (root: Option<string>)
    ensures root.Some? ==> exists i: nat :: i < |found| && found[i].snapshot.host == host && found[i].root == root
  {
    if found == [] then None
    else if found[0].snapshot.host == host then found[0].root
    else
      var root := RootOf(found[1..], host);
      assert root.Some? ==> forall i: nat :: i < |found| - 1 ==> found[1..][i] == found[i + 1];
      root
  }

  lemma {:induction false} RootMeans(found: seq<Found>, i: nat)
    requires DistinctFound(found) && i < |found|
    ensures RootOf(found, found[i].snapshot.host) == found[i].root
  {
    if i > 0 {
      assert found[1..][i - 1] == found[i];
      RootMeans(found[1..], i - 1);
    }
  }

  /** The pass's policy: targets only, none that shares its authority with another, each at the
      root it answered for; ranking and the other refusals as configured. */
  function PassPolicy(settings: Policy, found: seq<Found>, targets: seq<string>, shared: set<string>): Policy {
    settings.(refuseTarget := host =>
                if host !in targets then Some("not a target")
                else if host in shared then Some("shared state root")
                else settings.refuseTarget(host),
              rootOf := host => RootOf(found, host))
  }

  /** A host may be used exactly when it is a target, shares its authority with no other, is not
      refused as configured, and answered for an absolute root. */
  lemma PassUses(settings: Policy, found: seq<Found>, targets: seq<string>, shared: set<string>, r: Record,
                 host: string)
    requires DistinctFound(found)
    ensures Usable(PassPolicy(settings, found, targets, shared), r, host) <==>
      && host in targets && host !in shared
      && settings.refuseTarget(host).None? && settings.refuseJob(r, host).None?
      && exists f :: f in found && f.snapshot.host == host && f.root.Some? && "/" <= f.root.value
  {
    var p := PassPolicy(settings, found, targets, shared);
    if f :| f in found && f.snapshot.host == host && f.root.Some? {
      var i :| 0 <= i < |found| && found[i] == f;
      RootMeans(found, i);
    }
    if p.rootOf(host).Some? {
      var i: nat :| i < |found| && found[i].snapshot.host == host && found[i].root == p.rootOf(host);
      assert found[i] in found;
    }
  }

  lemma ChosenApart(settings: Policy, found: seq<Found>, targets: seq<string>, shared: set<string>, one: Op, other: Op)
    requires IsShared(found, targets, shared)
    requires Chosen(PassPolicy(settings, found, targets, shared), one)
    requires Chosen(PassPolicy(settings, found, targets, shared), other)
    ensures Apart(found, targets, one, other)
  {
    hide AnswersFor;
    if one.snapshot.host != other.snapshot.host {
      var i: nat :| i < |found| && found[i].snapshot.host == one.snapshot.host && found[i].root == Some(one.root);
      var k: nat :| k < |found| && found[k].snapshot.host == other.snapshot.host && found[k].root == Some(other.root);
      assert !Twin(found, targets, i, k);
      assert Stands(found[i], one) && Stands(found[k], other);
    }
  }

  // --------------------------------------------------------------------
  // What a pass is offered

  ghost predicate Replied(found: seq<Found>, host: string) {
    exists f :: f in found && f.snapshot.host == host
  }

  ghost predicate Came(found: seq<Found>, s: Snapshot) {
    exists f :: f in found && f.snapshot == s
  }

  /** The snapshots of the answering targets, each once per listing and in the targets' order:
      `at` is where each is listed. */
  ghost predicate IsOffer(found: seq<Found>, targets: seq<string>, offered: seq<Snapshot>, at: seq<nat>) {
    && |at| == |offered| && (forall i, k :: 0 <= i < k < |at| ==> at[i] < at[k])
    && (forall i :: 0 <= i < |at| ==> at[i] < |targets| && targets[at[i]] == offered[i].host)
    && (forall i :: 0 <= i < |at| ==> Came(found, offered[i]))
    && (forall k: nat :: k < |targets| && Replied(found, targets[k]) ==> k in at)
  }

  function SnapshotOf(found: seq<Found>, host: string): Option<Snapshot> {
    if found == [] then None
    else if found[0].snapshot.host == host then Some(found[0].snapshot)
    else SnapshotOf(found[1..], host)
  }

  lemma {:induction false} SnapshotMeans(found: seq<Found>, host: string)
    ensures SnapshotOf(found, host).Some? <==> Replied(found, host)
    ensures var s := SnapshotOf(found, host);
            s.Some? ==> s.value.host == host && Came(found, s.value)
  {
    if found != [] && found[0].snapshot.host != host {
      SnapshotMeans(found[1..], host);
      assert forall f :: f in found <==> f == found[0] || f in found[1..];
    }
  }

  lemma OfferNext(found: seq<Found>, targets: seq<string>, n: nat, offered: seq<Snapshot>, at: seq<nat>)
    requires n < |targets| && IsOffer(found, targets[..n], offered, at)
    ensures var s := SnapshotOf(found, targets[n]);
            if s.Some? then IsOffer(found, targets[..n + 1], offered + [s.value], at + [n])
            else IsOffer(found, targets[..n + 1], offered, at)
  {
    hide SnapshotOf, Replied, Came;
    SnapshotMeans(found, targets[n]);
    assert targets[..n + 1] == targets[..n] + [targets[n]];
    forall i | 0 <= i < |at| ensures at[i] < n { }
    forall k: nat | k < n ensures targets[..n + 1][k] == targets[..n][k] { }
  }

  /** The answering targets' snapshots. */
  method Offer(found: seq<Found>, targets: seq<string>) returns (offered: seq<Snapshot>, ghost at: seq<nat>)
    ensures IsOffer(found, targets, offered, at)
  {
    hide SnapshotOf, IsOffer;
    offered, at := [], [];
    OfferNothing(found, targets);
    for n := 0 to |targets|
      invariant IsOffer(found, targets[..n], offered, at)
    {
      OfferNext(found, targets, n, offered, at);
      var s := SnapshotOf(found, targets[n]);
      if s.Some? { offered, at := offered + [s.value], at + [n]; }
    }
    assert targets[..|targets|] == targets;
  }

  lemma OfferNothing(found: seq<Found>, targets: seq<string>)
    ensures IsOffer(found, targets[..0], [], [])
  {
  }

  /** Some answering target is listed twice. */
  ghost predicate ListedTwice(found: seq<Found>, targets: seq<string>) {
    exists i, k :: 0 <= i < k < |targets| && targets[i] == targets[k] && Replied(found, targets[i])
  }

  lemma OfferUnique(found: seq<Found>, targets: seq<string>, offered: seq<Snapshot>, at: seq<nat>)
    requires IsOffer(found, targets, offered, at)
    ensures UniqueHosts(offered) <==> !ListedTwice(found, targets)
  {
    hide Replied;
    if i, k :| 0 <= i < k < |targets| && targets[i] == targets[k] && Replied(found, targets[i]) {
      var a :| 0 <= a < |at| && at[a] == i;
      var b :| 0 <= b < |at| && at[b] == k;
      assert offered[a].host == offered[b].host;
    }
    if i, k :| 0 <= i < k < |offered| && offered[i].host == offered[k].host {
      OfferReplied(found, targets, offered, at, i);
      assert targets[at[i]] == targets[at[k]];
    }
  }

  lemma OfferReplied(found: seq<Found>, targets: seq<string>, offered: seq<Snapshot>, at: seq<nat>, i: nat)
    requires IsOffer(found, targets, offered, at) && i < |offered|
    ensures Replied(found, targets[at[i]])
  {
    assert Came(found, offered[i]);
    var f :| f in found && f.snapshot == offered[i];
  }

  lemma OfferNamed(found: seq<Found>, targets: seq<string>, offered: seq<Snapshot>, at: seq<nat>)
    requires IsOffer(found, targets, offered, at) && forall f :: f in found ==> !Blank(f.snapshot.host)
    ensures NamedHosts(offered)
  {
  }

  /** Every answer from a target is offered. */
  lemma OfferHas(found: seq<Found>, targets: seq<string>, offered: seq<Snapshot>, at: seq<nat>, f: Found)
    requires IsOffer(found, targets, offered, at) && DistinctFound(found) && f in found && f.snapshot.host in targets
    ensures f.snapshot in offered
  {
    var k :| 0 <= k < |targets| && targets[k] == f.snapshot.host;
    assert Replied(found, targets[k]);
    var i :| 0 <= i < |at| && at[i] == k;
    var g :| g in found && g.snapshot == offered[i];
  }

  /** At some moment since, the job was held and every target that answered was ruled out for it. */
  ghost predicate AllRuledOut(from: nat, trace: seq<Step>, j: string, found: seq<Found>, targets: seq<string>,
                              offered: seq<Snapshot>, p: Policy)
  {
    exists t, r: Record :: from <= t <= |trace| && r.jobId == j && r.state == Held
      && RuledOutAt(Run(START, trace[..t]), r, found, targets, offered, p)
  }

  ghost predicate RuledOutAt(w: World, r: Record, found: seq<Found>, targets: seq<string>,
                             offered: seq<Snapshot>, p: Policy)
  {
    && r.jobId in w.records && Nudged(r, w.records[r.jobId])
    && forall f :: f in found && f.snapshot.host in targets ==> RuledOut(w.records, r, offered, w.clock, p, f.snapshot)
  }

  lemma HeadRuledOut(from: nat, trace: seq<Step>, j: string, found: seq<Found>, targets: seq<string>,
                     offered: seq<Snapshot>, at: seq<nat>, p: Policy)
    requires IsOffer(found, targets, offered, at) && DistinctFound(found) && NoHostSince(from, trace, j, offered, p)
    ensures AllRuledOut(from, trace, j, found, targets, offered, p)
  {
    hide Run, RuledOut, Nudged, IsOffer;
    var t :| from <= t <= |trace| && NoHostFor(Run(START, trace[..t]), j, offered, p);
    var w := Run(START, trace[..t]);
    var r: Record :| r.jobId == j && r.state == Held && Nudged(r, w.records[j])
                     && NoHost(w.records, r, offered, w.clock, p);
    forall f | f in found && f.snapshot.host in targets
      ensures RuledOut(w.records, r, offered, w.clock, p, f.snapshot)
    {
      OfferHas(found, targets, offered, at, f);
    }
    assert RuledOutAt(w, r, found, targets, offered, p);
  }

  /** Each host's answer, for the settlements. */
  function EvidenceOf(found: seq<Found>): map<string, Sample> {
    if found == [] then map[]
    else EvidenceOf(found[..|found| - 1])[found[|found| - 1].snapshot.host := found[|found| - 1].jobs]
  }

  /** Every answer is evidence for its own host, and there is no other. */
  lemma {:induction false} EvidenceMeans(found: seq<Found>)
    requires DistinctFound(found)
    ensures forall f :: f in found ==>
      f.snapshot.host in EvidenceOf(found) && EvidenceOf(found)[f.snapshot.host] == f.jobs
    ensures forall h :: h in EvidenceOf(found) ==> Replied(found, h)
  {
    if found != [] {
      var rest, last := found[..|found| - 1], found[|found| - 1];
      EvidenceMeans(rest);
      assert forall f :: f in found <==> f in rest || f == last;
    }
  }

  lemma {:induction false} EvidenceTaken(found: seq<Found>, samples: set<Sample>)
    requires forall f :: f in found ==> f.jobs in samples
    ensures forall h :: h in EvidenceOf(found) ==> EvidenceOf(found)[h] in samples
  {
    if found != [] {
      forall f | f in found[..|found| - 1] ensures f in found { }
      EvidenceTaken(found[..|found| - 1], samples);
    }
  }

  lemma SavedOn(p: Policy, before: seq<Step>, after: seq<Step>)
    requires before <= after && AllChosen(p, |before|, after)
    ensures AllSavesSorted(before) ==> AllSavesSorted(after)
  {
    hide SavesSorted, Chosen;
    forall t | 0 <= t < |before| && AllSavesSorted(before) ensures SavesSorted(after[t]) {
      assert SavesSorted(before[t]);
    }
  }

  /** Take evidence from every target and run one pass on it. Beyond what the pass keeps, one
      authority's capacity is never promised under two names: reservations on two hosts are
      with two authorities. */
  method RunPass(b: Broker, found: seq<Found>, targets: seq<string>, settings: Policy, unusable: bool)
    returns (report: Option<Report>, ghost mid: seq<Step>, ghost marks: seq<nat>, ghost shared: set<string>,
             ghost offered: seq<Snapshot>, ghost at: seq<nat>)
    requires b.Valid() && Reranks(settings) && DistinctFound(found)
    requires forall f :: f in found ==> !Blank(f.snapshot.host)
    requires forall f :: f in found ==> f.jobs in b.world.samples
    modifies b
    ensures b.Valid() && AllApart(found, targets, |old(b.trace)|, b.trace)
    ensures old(AllSavesSorted(b.trace)) ==> AllSavesSorted(b.trace)
    ensures IsOffer(found, targets, offered, at)
    ensures report.None? <==> ListedTwice(found, targets) || unusable
    ensures report.None? ==> b.world == old(b.world)
    ensures report.Some? ==>
      && Quiet(old(b.trace), mid) && InOrder(report.value.queue) && DistinctJobs(report.value.queue)
      && AllStored(|old(b.trace)|, mid, report.value.read) && NoneHalfWay(report.value.read)
      && (forall r :: r in report.value.queue <==> r in report.value.read && r.state == Held)
      && (forall j :: j in old(b.world).records ==> exists r :: r in report.value.read && r.jobId == j)
      && Fifo(JobIds(report.value.queue), mid, b.trace, marks, report.value.head)
      && RoomKept(|old(b.trace)|, b.trace, offered, b.world.records)
      && SettleStage(|old(b.trace)|, mid, report.value.read, EvidenceOf(found), report.value.settled, settings.maxAge)
      && ReplayStage(|old(b.trace)|, mid, report.value.read, report.value.replayed,
                     PassPolicy(settings, found, targets, shared))
      && (report.value.head.None? ==> !report.value.stopped)
      && (report.value.head.Some? ==>
            if report.value.stopped
            then HinderedSince(|mid|, b.trace, report.value.head.value, PassPolicy(settings, found, targets, shared))
            else AllRuledOut(|mid|, b.trace, report.value.head.value, found, targets, offered,
                             PassPolicy(settings, found, targets, shared)))
    ensures IsShared(found, targets, shared)
  {
    hide Sane, Run, Grounded, Fifo, InOrder, RoomKept, Chosen, Apart, UniqueHosts, NamedHosts;
    hide AllStored, NoneHalfWay, SettleStage, ReplayStage, IsOffer, ListedTwice, AllRuledOut, HinderedSince;
    hide NoHostSince;
    var twins := SharedAuthorities(found, targets);
    shared := twins;
    var p := PassPolicy(settings, found, targets, twins);
    EvidenceTaken(found, b.world.samples);
    var snapshots;
    snapshots, at := Offer(found, targets);
    offered := snapshots;
    OfferUnique(found, targets, offered, at);
    OfferNamed(found, targets, offered, at);
    report, mid, marks := RunOnce(b, snapshots, EvidenceOf(found), unusable, p);
    if report.Some? && report.value.head.Some? && !report.value.stopped {
      HeadRuledOut(|mid|, b.trace, report.value.head.value, found, targets, offered, at, p);
    }
    SavedOn(p, old(b.trace), b.trace);
    forall t, u | |old(b.trace)| <= t < |b.trace| && |old(b.trace)| <= u < |b.trace|
                  && IsReserve(b.trace[t]) && IsReserve(b.trace[u])
      ensures Apart(found, targets, b.trace[t].op, b.trace[u].op)
    {
      ChosenApart(settings, found, targets, shared, b.trace[t].op, b.trace[u].op);
    }
  }

  // --------------------------------------------------------------------
  // What is stored is read back

  ghost predicate AllSavesSorted(trace: seq<Step>) {
    forall t :: 0 <= t < |trace| ==> SavesSorted(trace[t])
  }

  ghost predicate AllAscending(w: World) {
    forall j :: j in w.records ==> StringOrder.AscendingNames(w.records[j].heldBlockers)
  }

  /** A transition keeps the held blockers, clears them, or saves the ones it names. */
  lemma NextBlockers(r: Record, op: Op, now: Time)
    requires Next(r, op, now).Some?
    ensures var b := Next(r, op, now).value.heldBlockers;
            b == r.heldBlockers || b == [] || (op.RecordHeldBlockers? && b == op.found)
  {
    hide ParseReason, TransferFingerprint, TargetJobIdOk, BlockersOk, NewAttempt, StartsWith;
  }

  lemma WriteAscends(w: World, j: string, expected: int, op: Op)
    requires AllAscending(w) && (op.RecordHeldBlockers? ==> StringOrder.AscendingNames(op.found))
    ensures AllAscending(BrokerProtocol.Write(w, j, expected, op))
  {
    hide Next, StringOrder.AscendingNames;
    if j in w.records && Next(w.records[j], op, w.clock).Some? {
      NextBlockers(w.records[j], op, w.clock);
      NoneAscend();
    }
  }

  lemma NoneAscend()
    ensures StringOrder.AscendingNames([])
  {
  }

  lemma StepAscends(w: World, step: Step)
    requires AllAscending(w) && SavesSorted(step)
    ensures AllAscending(Apply(w, step))
  {
    hide BrokerProtocol.Write, Answered, FenceAnswered, SettleEvidence, RequestOf, IntentOk, BrokerJobIdOk, IdUsed;
    hide DeliverTo, FenceAt, StringOrder.AscendingNames, JobsOf;
    NoneAscend();
    match step {
      case Change(j, expected, op) => if !NeedsEvidence(op) { WriteAscends(w, j, expected, op); }
      case Place(j, expected, fingerprint, id) => WriteAscends(w, j, expected, RecordPlaced(fingerprint, id));
      case Return(j, expected, proof) => WriteAscends(w, j, expected, FenceTransfer(proof));
      case Settle(j, expected, s) => WriteAscends(w, j, expected, SettleCharge);
      case _ =>
    }
  }

  lemma {:induction false} RunAscends(w: World, steps: seq<Step>)
    requires AllAscending(w) && AllSavesSorted(steps)
    ensures AllAscending(Run(w, steps))
    decreases |steps|
  {
    hide Apply, AllAscending, SavesSorted;
    if steps != [] {
      assert SavesSorted(steps[0]);
      forall t | 0 <= t < |steps| - 1 ensures SavesSorted(steps[1..][t]) { assert steps[1..][t] == steps[t + 1]; }
      StepAscends(w, steps[0]);
      RunAscends(Apply(w, steps[0]), steps[1..]);
    }
  }

  /** In every run whose blockers are saved as a pass saves them, every record in the store reads
      back exactly as it is. */
  lemma RunReadsBack(steps: seq<Step>, j: string, wire: Intent -> bool)
    requires AllSavesSorted(steps) && j in Run(START, steps).records && wire(Run(START, steps).records[j].intent)
    ensures var r := Run(START, steps).records[j]; BrokerJson.ParseRecord(BrokerJson.RecordDoc(r), wire) == Some(r)
  {
    hide Run, Sane, BrokerJson.ParseRecord, BrokerJson.RecordDoc, Grounded, AllSavesSorted, StringOrder.AscendingNames;
    RunAscends(START, steps);
    RunSane(steps);
    Keyed(Run(START, steps), j);
    var r := Run(START, steps).records[j];
    BrokerJson.AscendingIsSorted(r.heldBlockers);
    GroundedIsReadable(r);
    BrokerJson.RoundTripIffSorted(r, wire);
  }

  lemma RunSane(steps: seq<Step>)
    ensures Sane(Run(START, steps))
  {
    hide Run;
    StartInv();
    StaysSaneAlong(START, steps);
  }

  lemma {:induction false} StaysSaneAlong(w: World, steps: seq<Step>)
    requires Sane(w)
    ensures Sane(Run(w, steps))
    decreases |steps|
  {
    hide Apply, Sane;
    if steps != [] {
      StaysSane(w, steps[0]);
      StaysSaneAlong(Apply(w, steps[0]), steps[1..]);
    }
  }
}
