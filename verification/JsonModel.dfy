/** JSON documents as values. Member names and words the program fixes are constructors, so
    two of them differ at sight; names and texts taken from data are `Named` and `JStr`. A SHA-256 digest is a token
    for the text it was taken of, so equal digests mean equal texts. */
module JsonModel {

  datatype Name =
    | KSchema | KBrokerJobId | KRevision | KState | KCreatedAt | KUpdatedAt | KIntent
    | KIntentDigest | KPayload | KAttempts | KCancellation | KHeldBlockers
    | KSha256 | KSize
    | KRequestedAt | KReason | KCompletedAt
    | KNumber | KPhase | KTargetHost | KTargetStateRoot | KReservationId | KCharge
    | KDecidedAt | KSnapshot | KRanking | KBlockers | KIdempotencyKey | KRequestFingerprint
    | KTransferStartedAt | KTargetJobId | KAcceptedAt | KReturnedAt | KReturnReason
    | KChargeReleasedAt | KDiagnostics
    | KCpus | KMemMb | KJobSlots
    | KCommand | KWallTimeSeconds | KPriority | KAutoResume | KRetry | KJobName | KProgram
    | KExpectedSha | KTags | KCleanWorkdir | KRerunUntil | KRerunMax | KPool | KRuntimeSeconds
    | KPayloadSha256 | KAuthority | KRuntimePins
    | KHost | KObservedAt | KFreeCpus | KFreeMemMb | KFreeJobs | KPendingCpus | KIdleSeconds
    | KPools | KMaxWallTime
    | Named(text: string)

  datatype Word =
    | WRecordSchema | WTransferSchema
    | WHeld | WReserved | WTransferring | WPlaced | WReturned | WCancelled

  /** A number keeps whether it was written as an integer. */
  datatype Number = Whole(n: int) | Frac(r: real) {
    function AsReal(): real {
      if Whole? then n as real else r
    }
  }

  datatype Json =
    | JNull
    | JBool(b: bool)
    | JNum(num: Number)
    | JStr(s: string)
    | JWord(word: Word)
    | JDigest(of: Preimage)
    | JArr(items: seq<Json>)
    | JObj(members: map<Name, Json>)

  /** What a digest was taken of: opaque bytes, or the canonical text of a document. */
  datatype Preimage = Bytes(id: nat) | Text(doc: Json)

  type Members = map<Name, Json>
}
