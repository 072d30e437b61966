/**
 What each statement leaves in its row, column by column. The contracts of the statements and
 of the worker are stated in these terms.
*/
module Columns {
  import opened Wrappers
  import opened Contract
  import opened Tables
  import opened Statements
  import Numerals

  // ---------------------------------------------------------------- jobs

  predicate Unclaimed(k: Job) {
    k.claimedBy.None? && k.claimedAt.None? && k.leaseExpiresAt.None?
  }

  predicate SameError(j: Job, k: Job) {
    k.errorKind == j.errorKind && k.errorDetail == j.errorDetail
  }

  /** A worker with this build may work on the job. */
  predicate WaitsFor(j: Job, build: Build) {
    && j.status == Queued
    && j.identity.pokeEngineTag == build.pokeEngineTag
    && j.identity.usageStatsDataset == build.usageStatsDataset
  }

  /** Its worker has let the lease run out. */
  predicate Abandoned(j: Job, now: Time) {
    j.status == Running && match j.leaseExpiresAt
      case Some(end) => end < now
      case None => false
  }

  predicate RowClaimed(j: Job, k: Job, w: WorkerId, now: Time, leaseSeconds: nat) {
    && SameOrigin(j, k) && SameError(j, k) && k.analysisId == j.analysisId
    && k.status == Running
    && k.attempts == j.attempts + 1
    && k.claimedBy == Some(w) && k.claimedAt == Some(now)
    && k.leaseExpiresAt == Some(now + leaseSeconds * 1_000_000)
    && k.updatedAt == now
  }

  predicate RowRenewed(j: Job, k: Job, now: Time, leaseSeconds: nat) {
    && SameOrigin(j, k) && SameError(j, k) && k.analysisId == j.analysisId
    && k.status == j.status && k.attempts == j.attempts
    && k.claimedBy == j.claimedBy && k.claimedAt == j.claimedAt
    && k.leaseExpiresAt == Some(now + leaseSeconds * 1_000_000)
    && k.updatedAt == now
  }

  predicate RowCompleted(j: Job, k: Job, aid: AnalysisId, now: Time) {
    && SameOrigin(j, k) && k.attempts == j.attempts && Unclaimed(k)
    && k.status == Succeeded
    && k.analysisId == Some(aid)
    && k.errorKind.None? && k.errorDetail.None?
    && k.updatedAt == now
  }

  predicate RowFailed(j: Job, k: Job, retryable: bool, kind: ErrorKind, detail: string, cap: nat, now: Time) {
    && SameOrigin(j, k) && k.attempts == j.attempts && k.analysisId == j.analysisId && Unclaimed(k)
    && (k.status == Queued <==> retryable && j.attempts < cap)
    && (k.status == Failed <==> !retryable || cap <= j.attempts)
    && k.errorKind == Some(kind) && k.errorDetail == Some(detail)
    && k.updatedAt == now
  }

  /** Below the cap an abandoned job waits again with the error it had, at the cap it ends with a dead letter. */
  predicate RowReclaimed(j: Job, k: Job, cap: nat, now: Time) {
    && SameOrigin(j, k) && k.attempts == j.attempts && k.analysisId == j.analysisId && Unclaimed(k)
    && (j.attempts < cap ==> k.status == Queued && SameError(j, k))
    && (cap <= j.attempts ==> k.status == Failed && k.errorKind == Some(EngineInternalError) && DeadLettered(j, k))
    && k.updatedAt == now
  }

  predicate DeadLettered(j: Job, k: Job) {
    k.errorDetail == Some(
      "lease expired after " + Numerals.Decimal(j.attempts) + " attempt(s); last worker: "
      + match j.claimedBy
        case Some(w) => w
        case None => "unknown")
  }

  predicate RowInserted(k: Job, identity: Identity, profile: string, turns: nat, searchMs: nat, now: Time) {
    && k.identity == identity && k.profile == profile
    && k.estimatedTurns == turns && k.estimatedSearchMs == searchMs
    && k.createdAt == now && k.updatedAt == now
    && k.status == Queued && k.attempts == 0 && Unclaimed(k)
    && k.analysisId.None? && k.errorKind.None? && k.errorDetail.None?
  }

  /** No other row came, went or changed. */
  predicate OnlyRow<T(==)>(before: map<nat, T>, after: map<nat, T>, id: nat) {
    && after.Keys == before.Keys + {id}
    && forall k | k in before && k != id :: after[k] == before[k]
  }

  /** The rows these columns describe are the rows the statements write. */
  lemma StatementsWriteTheseColumns(
    j: Job, k: Job, w: WorkerId, retryable: bool, kind: ErrorKind, detail: string, aid: AnalysisId,
    cap: nat, now: Time, leaseSeconds: nat)
    ensures RowClaimed(j, k, w, now, leaseSeconds) <==> k == ClaimRow(j, w, now, leaseSeconds)
    ensures RowRenewed(j, k, now, leaseSeconds) <==> k == HeartbeatRow(j, now, leaseSeconds)
    ensures RowCompleted(j, k, aid, now) <==> k == CompleteRow(j, aid, now)
    ensures RowFailed(j, k, retryable, kind, detail, cap, now) <==> k == FailRow(j, retryable, kind, detail, cap, now)
    ensures RowReclaimed(j, k, cap, now) <==> k == ReclaimRow(j, cap, now)
    ensures RowInserted(k, j.identity, j.profile, j.estimatedTurns, j.estimatedSearchMs, now)
      <==> k == NewJob(j.identity, j.profile, j.estimatedTurns, j.estimatedSearchMs, now)
  {
  }

  // ---------------------------------------------------------------- analyses

  /**
   The identity's row holds the run's document and telemetry. A new row has the document's turn
   counts and the time; an existing one keeps the counts and the time it had.
  */
  predicate AnalysisWritten(
    before: map<AnalysisId, Analysis>, after: map<AnalysisId, Analysis>, aid: AnalysisId,
    identity: Identity, document: Document, wallMs: nat, degraded: bool, now: Time)
  {
    && OnlyRow(before, after, aid)
    && after[aid].identity == identity
    && after[aid].document == document
    && after[aid].wallMs == wallMs && after[aid].degraded == degraded
    && (aid !in before ==>
          && (forall a | a in before :: before[a].identity != identity)
          && after[aid].totalTurns == document.totalTurns && after[aid].gradableTurns == document.gradableTurns
          && after[aid].createdAt == now)
    && (aid in before ==>
          && before[aid].identity == identity
          && after[aid].totalTurns == before[aid].totalTurns && after[aid].gradableTurns == before[aid].gradableTurns
          && after[aid].createdAt == before[aid].createdAt)
  }

  lemma UpsertWrites(db: Db, aid: AnalysisId, identity: Identity, run: AnalysisRun, now: Time)
    requires UpsertTarget(db.analyses, identity, aid)
    ensures AnalysisWritten(db.analyses, UpsertAnalysis(db, aid, identity, run, now).analyses, aid, identity,
              run.document, run.wallMs, run.degraded, now)
  {
  }

  // ---------------------------------------------------------------- error details

  /** The beginning of the detail, cut at 2000 characters. */
  predicate CutAt2000(stored: string, detail: string) {
    |stored| <= 2000 && stored <= detail && (stored == detail || |stored| == 2000)
  }

  /** The failures worth another attempt. */
  predicate WorthARetry(kind: ErrorKind) {
    match kind
    case EngineDataMissing | EngineUnavailable => true
    case ReplayNotFound | AnalysisRejected | AnalysisParseFailed | EngineCrashed | EngineInternalError => false
  }
}
