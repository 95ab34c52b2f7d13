/** What a fresh process takes from the store: nothing but a document that says what the record
    would be written as, of a record that may be published (src/vq/broker_store.py:434-666). */
module BrokerReading {
  import opened Common
  import opened JsonModel
  import opened BrokerRecord
  import opened BrokerJson
  import StringOrder

  /** The same document, up to how its numbers are spelled. */
  ghost predicate Alike(j: Json, k: Json)
    decreases j
  {
    match (j, k)
    case (JArr(x), JArr(y)) => |x| == |y| && forall i :: 0 <= i < |x| ==> Alike(x[i], y[i])
    case (JObj(x), JObj(y)) => x.Keys == y.Keys && forall n :: n in x ==> Alike(x[n], y[n])
    case (JNum(x), JNum(y)) => x.AsReal() == y.AsReal()
    case (JBool(b), JNum(y)) => y.AsReal() == if b then 1.0 else 0.0
    case _ => j == k
  }

  lemma {:induction false} AlikeItself(j: Json)
    ensures Alike(j, j)
    decreases j
  {
    if j.JArr? {
      forall i | 0 <= i < |j.items| ensures Alike(j.items[i], j.items[i]) { AlikeItself(j.items[i]); }
    }
    if j.JObj? {
      forall n | n in j.members ensures Alike(j.members[n], j.members[n]) { AlikeItself(j.members[n]); }
    }
  }

  /** These members say what the part does. */
  ghost predicate SaysPart(m: Members, part: Members) {
    part.Keys <= m.Keys && forall n :: n in part ==> Alike(m[n], part[n])
  }

  lemma ReadTime(j: Json)
    ensures ParseTime(j).Some? ==> Alike(j, JNum(Frac(ParseTime(j).value))) && ParseTime(j).value >= 0.0
  {
  }

  lemma ReadOptTime(j: Json)
    ensures ParseOptTime(j).Some? ==> Alike(j, OptTime(ParseOptTime(j).value)) && TimeOk(ParseOptTime(j).value)
  {
  }

  lemma ReadStrings(j: Json)
    ensures ParseStrings(j).Some? ==> j == StrArr(ParseStrings(j).value)
  {
  }

  lemma ReadOptStr(j: Json)
    ensures ParseAnyOptStr(j).Some? ==> j == OptStr(ParseAnyOptStr(j).value)
  {
  }

  lemma ReadState(j: Json)
    ensures ParseState(j).Some? ==> j == StateText(ParseState(j).value)
  {
  }

  lemma ReadCharge(j: Json)
    ensures ParseCharge(j).Some? ==>
      var c := ParseCharge(j).value; j == ChargeDoc(c) && c.cpus > 0 && c.memMb > 0 && c.jobSlots > 0
  {
    if ParseCharge(j).Some? {
      var c := ParseCharge(j).value;
      assert ChargeDoc(c).members.Keys == j.members.Keys;
    }
  }

  // --------------------------------------------------------------------
  // Attempts

  lemma ReadIdentity(m: Members, number: int, jobId: string, a: Attempt)
    requires IDENTITY_KEYS <= m.Keys && a.number == number && a.key == jobId
    requires ParseIdentity(m, number, jobId) == Some((a.phase, a.targetHost, a.targetRoot, a.reservationId))
    ensures SaysPart(m, AttemptIdentity(a))
    ensures a.phase in {Reserved, Transferring, Placed, Returned}
    ensures a.targetHost != "" && a.targetRoot != "" && a.reservationId != ""
  {
    ReadState(m[KPhase]);
  }

  lemma ReadDecision(m: Members, a: Attempt)
    requires DECISION_KEYS <= m.Keys
    requires ParseDecision(m) == Some((a.charge, a.decidedAt, a.snapshot, a.ranking, a.blockers))
    ensures SaysPart(m, AttemptDecision(a))
    ensures a.charge.cpus > 0 && a.charge.memMb > 0 && a.charge.jobSlots > 0 && a.decidedAt >= 0.0
  {
    hide ParseCharge;
    ReadCharge(m[KCharge]);
    ReadTime(m[KDecidedAt]);
    AlikeItself(m[KCharge]);
    AlikeItself(m[KSnapshot]);
    AlikeItself(m[KRanking]);
    AlikeItself(m[KBlockers]);
  }

  lemma ReadTransfer(m: Members, a: Attempt)
    requires TRANSFER_KEYS <= m.Keys
    requires ParseTransfer(m) == Some((a.fingerprint, a.transferStartedAt, a.targetJobId, a.acceptedAt))
    ensures SaysPart(m, AttemptTransfer(a))
    ensures TimeOk(a.transferStartedAt) && TimeOk(a.acceptedAt)
    ensures a.targetJobId.Some? ==> TargetJobIdOk(a.targetJobId.value)
  {
    hide TargetJobIdOk, ParseOptTime;
    ReadOptTime(m[KTransferStartedAt]);
    ReadOptTime(m[KAcceptedAt]);
  }

  lemma ReadReturn(m: Members, a: Attempt)
    requires RETURN_KEYS <= m.Keys
    requires ParseReturn(m) == Some((a.returnedAt, a.returnReason, a.chargeReleasedAt, a.diagnostics))
    ensures SaysPart(m, AttemptReturn(a))
    ensures TimeOk(a.returnedAt) && TimeOk(a.chargeReleasedAt) && a.returnReason != Some("")
  {
    hide ParseOptTime, ParseStrings;
    ReadOptTime(m[KReturnedAt]);
    ReadOptTime(m[KChargeReleasedAt]);
    ReadStrings(m[KDiagnostics]);
    AlikeItself(m[KDiagnostics]);
  }

  lemma SaysAll(m: Members, p: Members, q: Members, r: Members, s: Members)
    requires SaysPart(m, p) && SaysPart(m, q) && SaysPart(m, r) && SaysPart(m, s)
    requires m.Keys == p.Keys + q.Keys + r.Keys + s.Keys
    ensures Alike(JObj(m), JObj(p + q + r + s))
  {
    var all := p + q + r + s;
    assert all.Keys == m.Keys;
    forall n | n in m ensures Alike(m[n], all[n]) { }
  }

  lemma ReadAttempt(j: Json, number: int, jobId: string)
    requires ParseAttempt(j, number, jobId).Some?
    ensures var a := ParseAttempt(j, number, jobId).value;
            Alike(j, AttemptDoc(a)) && AttemptReadable(jobId, a, number)
  {
    hide ParseIdentity, ParseDecision, ParseTransfer, ParseReturn, TargetJobIdOk, Alike, SaysPart;
    hide AttemptIdentity, AttemptDecision, AttemptTransfer, AttemptReturn;
    var a, m := ParseAttempt(j, number, jobId).value, j.members;
    ReadIdentity(m, number, jobId, a);
    ReadDecision(m, a);
    ReadTransfer(m, a);
    ReadReturn(m, a);
    GroupKeys(a);
    SaysAll(m, AttemptIdentity(a), AttemptDecision(a), AttemptTransfer(a), AttemptReturn(a));
  }

  lemma {:induction false} ReadAttempts(items: seq<Json>, n: nat, jobId: string)
    requires n <= |items| && ParseAttempts(items, n, jobId).Some?
    ensures var attempts := ParseAttempts(items, n, jobId).value;
            && |attempts| == n && AttemptsReadable(jobId, attempts)
            && forall i :: 0 <= i < n ==> Alike(items[i], AttemptDoc(attempts[i]))
  {
    hide ParseAttempt, AttemptDoc, AttemptReadable, Alike;
    if n > 0 {
      ReadAttempts(items, n - 1, jobId);
      ReadAttempt(items[n - 1], n, jobId);
    }
  }

  // --------------------------------------------------------------------
  // The intent, the cancellation, the blockers

  lemma ReadRun(m: Members, t: Intent)
    requires RUN_KEYS <= m.Keys
    requires ParseRun(m) == Some((t.command, t.cpus, t.memMb, t.wallTime, t.priority, t.autoResume, t.retry))
    ensures Carries(m, IntentRun(t))
  {
    hide ParseStrings;
    ReadStrings(m[KCommand]);
  }

  lemma ReadLabels(m: Members, t: Intent)
    requires LABEL_KEYS <= m.Keys
    requires ParseLabels(m) == Some((t.jobName, t.program, t.expectedSha, t.tags, t.cleanWorkdir, t.rerunUntil,
                                     t.rerunMax, t.pool))
    ensures Carries(m, IntentLabels(t))
  {
    hide ParseStrings, ParseAnyOptStr;
    ReadStrings(m[KTags]);
    ReadOptStr(m[KJobName]);
    ReadOptStr(m[KProgram]);
    ReadOptStr(m[KExpectedSha]);
    ReadOptStr(m[KRerunUntil]);
    ReadOptStr(m[KPool]);
    var part := IntentLabels(t);
    assert m[KTags] == part[KTags] && m[KJobName] == part[KJobName] && m[KProgram] == part[KProgram];
    assert m[KExpectedSha] == part[KExpectedSha] && m[KRerunUntil] == part[KRerunUntil] && m[KPool] == part[KPool];
    assert m[KCleanWorkdir] == part[KCleanWorkdir] && m[KRerunMax] == part[KRerunMax];
  }

  lemma ReadRuntime(m: Members, t: Intent)
    requires ParseRuntime(m) == Some(t.runtimeSeconds)
    ensures Carries(m, IntentEstimate(t)) && (KRuntimeSeconds in m <==> t.runtimeSeconds.Some?)
  {
  }

  /** An intent is taken only from the very document it would be written as. */
  lemma ReadIntent(j: Json, wire: Intent -> bool)
    requires ParseIntent(j, wire).Some?
    ensures var t := ParseIntent(j, wire).value; j == IntentDoc(t) && IntentOk(t) && wire(t)
  {
    hide ParseRun, ParseLabels, ParseRuntime, IntentOk, IntentRun, IntentLabels, IntentEstimate, Carries;
    var t, m := ParseIntent(j, wire).value, j.members;
    ReadRun(m, t);
    ReadLabels(m, t);
    ReadRuntime(m, t);
    IntentGroupKeys(t);
    IntentWhole(m, t);
  }

  lemma IntentWhole(m: Members, t: Intent)
    requires Carries(m, IntentRun(t)) && Carries(m, IntentLabels(t)) && Carries(m, IntentEstimate(t))
    requires m.Keys == RUN_KEYS + LABEL_KEYS + (if t.runtimeSeconds.Some? then {KRuntimeSeconds} else {})
    ensures m == IntentRun(t) + IntentLabels(t) + IntentEstimate(t)
  {
    hide IntentRun, IntentLabels;
    IntentGroupKeys(t);
    var all := IntentRun(t) + IntentLabels(t) + IntentEstimate(t);
    assert all.Keys == m.Keys;
    forall n | n in m ensures m[n] == all[n] { }
  }

  lemma ReadCancellation(j: Json)
    requires ParseCancellation(j).Some?
    ensures var c := ParseCancellation(j).value;
            && Alike(j, CancellationDoc(c))
            && (c.Some? ==> c.value.requestedAt >= 0.0 && c.value.reason != "" && TimeOk(c.value.completedAt))
  {
    hide ParseOptTime, ParseTime;
    if !j.JNull? {
      ReadTime(j.members[KRequestedAt]);
      ReadOptTime(j.members[KCompletedAt]);
    }
  }

  /** Blockers are taken from the dictionary of the same entries, in order of hosts. */
  lemma ReadBlockers(m: Members)
    requires ParseBlockers(m).Some?
    ensures var b := ParseBlockers(m).value;
            && SortedBlockers(b) && BlockersOk(b)
            && (if KHeldBlockers in m then m[KHeldBlockers] == JObj(DictMembers(b)) else b == [])
  {
    if KHeldBlockers in m {
      var texts, b := BlockerTexts(m[KHeldBlockers].members), ParseBlockers(m).value;
      SortedItemsDict(texts);
      assert TextMembers(texts) == m[KHeldBlockers].members by { TextsBack(m[KHeldBlockers].members); }
    } else {
      assert Hosts([]) == [];
    }
  }

  lemma TextsBack(m: Members)
    requires forall n :: n in m ==> n.Named? && m[n].JStr?
    ensures TextMembers(BlockerTexts(m)) == m
  {
    var back := TextMembers(BlockerTexts(m));
    forall n | n in m ensures n in back && back[n] == m[n] {
      assert n == Named(n.text) && n.text in BlockerTexts(m);
    }
    forall n | n in back ensures n in m {
      var h :| h in BlockerTexts(m) && n == Named(h);
    }
  }

  lemma SortedItemsDict(d: map<string, string>)
    ensures Dict(SortedItems(d)) == d && SortedBlockers(SortedItems(d))
  {
    hide SortedItems, Dict, StringOrder.Ascending, StringOrder.Less;
    var b := SortedItems(d);
    forall h ensures h in Dict(b) <==> h in d
             ensures h in d ==> Dict(b)[h] == d[h]
    {
      ItemKept(d, b, h);
    }
  }

  lemma ItemKept(d: map<string, string>, b: Blockers, h: string)
    requires b == SortedItems(d)
    ensures h in Dict(b) <==> h in d
    ensures h in d ==> Dict(b)[h] == d[h]
  {
    hide SortedItems, Dict, StringOrder.Ascending, StringOrder.Less, StringOrder.Sorted;
    if h in d {
      assert h in Hosts(b);
      var i :| 0 <= i < |b| && Hosts(b)[i] == h;
      DictOfSorted(b, i);
    }
  }

  // --------------------------------------------------------------------
  // The record

  lemma ReadHead(m: Members, r: Record)
    requires HEAD_KEYS <= m.Keys && ParseHead(m) == Some((r.jobId, r.revision, r.state, r.createdAt, r.updatedAt))
    ensures SaysPart(m, RecordHead(r))
    ensures BrokerJobIdOk(r.jobId) && r.revision >= 1 && r.createdAt >= 0.0 && r.updatedAt >= 0.0
  {
    hide BrokerJobIdOk, ParseTime, ParseState;
    ReadState(m[KState]);
    ReadTime(m[KCreatedAt]);
    ReadTime(m[KUpdatedAt]);
  }

  lemma ReadPayload(j: Json, r: Record)
    requires ParsePayload(j) == Some((r.payload, r.payloadSize))
    ensures j == PayloadDoc(r) && r.payloadSize >= 0
  {
    assert PayloadDoc(r).members.Keys == j.members.Keys;
  }

  lemma ReadBody(m: Members, r: Record, wire: Intent -> bool)
    requires BODY_KEYS <= m.Keys
    requires ParseBody(m, r.jobId, wire) == Some((r.intent, (r.payload, r.payloadSize), r.attempts, r.cancellation))
    ensures SaysPart(m, RecordBody(r))
    ensures IntentOk(r.intent) && wire(r.intent) && r.payloadSize >= 0
    ensures |r.attempts| <= ATTEMPTS_MAX && AttemptsReadable(r.jobId, r.attempts)
    ensures r.cancellation.Some? ==>
      && r.cancellation.value.requestedAt >= 0.0 && r.cancellation.value.reason != ""
      && TimeOk(r.cancellation.value.completedAt)
  {
    hide ParseIntent, ParseAttempts, ParseCancellation, ParsePayload, IntentDoc, IntentDigest, CancellationDoc;
    hide PayloadDoc, IntentOk, AttemptDoc, AttemptsReadable, AttemptDocs;
    ReadIntent(m[KIntent], wire);
    ReadPayload(m[KPayload], r);
    ReadAttempts(m[KAttempts].items, |m[KAttempts].items|, r.jobId);
    ReadCancellation(m[KCancellation]);
    AlikeItself(m[KIntent]);
    AlikeItself(m[KPayload]);
    assert Alike(m[KAttempts], AttemptDocs(r.attempts));
    BodyParts(m, r);
  }

  lemma BodyParts(m: Members, r: Record)
    requires BODY_KEYS <= m.Keys && m[KIntentDigest] == JDigest(IntentDigest(r.intent))
    requires Alike(m[KIntent], IntentDoc(r.intent)) && Alike(m[KPayload], PayloadDoc(r))
    requires Alike(m[KAttempts], AttemptDocs(r.attempts)) && Alike(m[KCancellation], CancellationDoc(r.cancellation))
    ensures SaysPart(m, RecordBody(r))
  {
    hide IntentDoc, IntentDigest, CancellationDoc, PayloadDoc, AttemptDocs;
  }

  /** The document without an empty dictionary of held blockers, which is written by leaving it out. */
  ghost function Trimmed(j: Json): Json {
    if j.JObj? && KHeldBlockers in j.members && j.members[KHeldBlockers] == JObj(map[])
    then JObj(j.members - {KHeldBlockers}) else j
  }

  /** A stored document is taken as a record only if it says what that record would be written as,
      up to how numbers are spelled; and the record is one that may be published, with its
      blockers in order. Every other document is refused. */
  lemma ReadsOnly(j: Json, wire: Intent -> bool)
    requires ParseRecord(j, wire).Some?
    ensures var r := ParseRecord(j, wire).value;
            Alike(Trimmed(j), RecordDoc(r)) && Readable(r) && wire(r.intent) && SortedBlockers(r.heldBlockers)
  {
    hide ParseHead, ParseBody, ParseBlockers, IntentOk, BrokerJobIdOk, Consistent, AttemptsReadable, Alike, SaysPart;
    hide RecordHead, RecordBody, DictMembers, SortedBlockers, HEAD_KEYS, BODY_KEYS;
    var r, m := ParseRecord(j, wire).value, j.members;
    RecordGroupKeys(r);
    ReadHead(m, r);
    ReadBody(m, r, wire);
    ReadBlockers(m);
    RecordWhole(m, r);
  }

  lemma RecordWhole(m: Members, r: Record)
    requires SaysPart(m, RecordHead(r)) && SaysPart(m, RecordBody(r))
    requires if KHeldBlockers in m then m[KHeldBlockers] == JObj(DictMembers(r.heldBlockers)) else r.heldBlockers == []
    requires m.Keys == HEAD_KEYS + BODY_KEYS + (if KHeldBlockers in m then {KHeldBlockers} else {})
    ensures Alike(Trimmed(JObj(m)), RecordDoc(r))
  {
    hide RecordHead, RecordBody, HEAD_KEYS, BODY_KEYS, DictMembers;
    RecordGroupKeys(r);
    EmptyDict(r.heldBlockers);
    var part := RecordBlockers(r);
    if KHeldBlockers in m { AlikeItself(m[KHeldBlockers]); }
    var trimmed := Trimmed(JObj(m)).members;
    assert RecordHead(r) + RecordBody(r) + part + map[] == RecordHead(r) + RecordBody(r) + part;
    SaysAll(trimmed, RecordHead(r), RecordBody(r), part, map[]);
  }

  lemma EmptyDict(b: Blockers)
    ensures DictMembers(b) == map[] <==> b == []
  {
    if b != [] { assert Named(b[0].0) in DictMembers(b); }
  }

  /** What was read once, written and read again is the same. */
  lemma ReadStable(j: Json, wire: Intent -> bool)
    requires ParseRecord(j, wire).Some?
    ensures ParseRecord(RecordDoc(ParseRecord(j, wire).value), wire) == ParseRecord(j, wire)
  {
    hide ParseRecord, RecordDoc, Readable, Alike;
    ReadsOnly(j, wire);
    RoundTripIffSorted(ParseRecord(j, wire).value, wire);
  }
}
