/** The invariant of the approval gate. Every record passes the adapter's check
    and carries the provenance its approval needs, the replay sets are exactly
    what the audit log says, and the ledger mirrors the gate request by request. */
module GateInvariant {
  import opened Wrappers
  import opened ApprovalTypes
  import opened ApprovalRules
  import opened ApprovalLedger
  import opened ApprovalGate

  // ----- one record

  /** What an interactive approval went through, beyond what ValidateRecord re-checks:
      the warning was up long enough, a high-risk approver is somebody else even
      on a request marked pre-approved, and an emergency had a break-glass reason
      from an administrator. */
  ghost predicate SoundApproval(r: Record, commit: Commit) {
    var c := r.confirmation;
    && c.warningReadAt + WARNING_DELAY <= commit.issuedAt < r.expiresAt
    && c.actor == commit.actor && c.sessionID == commit.sessionID
    && (HighRisk(r.request) ==>
          commit.actor != r.request.actor && commit.sessionID != r.request.sessionID)
    && (!HighRisk(r.request) ==> commit.sessionID == r.request.sessionID)
    && (r.request.risk == Emergency ==>
          && r.request.breakGlass && c.breakGlass && (c.role == SecurityAdmin || c.role == TenantOwner)
          && !AllSpace(c.breakGlassReason) && ValidReason(c.breakGlassReason))
    && (Sensitive(r.request) ==> c.step == 3 && c.thirdConfirmation)
  }

  /** A confirmation that waits for the third click, or has had it. */
  ghost predicate SoundConfirmation(r: Record) {
    r.confirmation.confirmationID != "" && !AutoApproved(r.request) ==>
      && InteractiveConfirmation(r) && r.confirmation.local
      && (r.status == Pending ==> Sensitive(r.request) && r.confirmation.step == 2)
  }

  ghost predicate GoodRecord(r: Record, epoch: nat, clock: Time) {
    && ValidateRecord(r).Pass? && r.submittedAt <= clock && r.request.policyEpoch == epoch
    && SoundConfirmation(r) && (r.status == Approved ==> r.confirmation.confirmationID != "")
    && (r.commit.Some? && !AutoApproved(r.request) ==> SoundApproval(r, r.commit.value))
  }

  // ----- the audit log

  ghost predicate IsCheckpointFor(e: AuditEvent, r: Record) {
    var c := r.confirmation;
    && e.kind == Checkpoint && e.confirmationID == c.confirmationID && e.actor == c.actor
    && BoundTo(e, r.request) && c.warningReadAt + WARNING_DELAY <= e.at
  }

  ghost predicate IsAuthorizationFor(e: AuditEvent, r: Record) {
    && r.commit.Some? && e.kind == Authorized && e.confirmationID == r.commit.value.confirmationID
    && e.actor == r.commit.value.actor && e.at == r.commit.value.issuedAt && BoundTo(e, r.request)
  }

  ghost predicate CheckpointBefore(audit: seq<AuditEvent>, n: nat, r: Record)
    requires n <= |audit|
  {
    exists i :: 0 <= i < n && IsCheckpointFor(audit[i], r)
  }

  /** The log shows how a record got where it is. */
  ghost predicate Trail(audit: seq<AuditEvent>, r: Record) {
    && (Sensitive(r.request) && r.confirmation.confirmationID != "" ==>
          CheckpointBefore(audit, |audit|, r))
    && (r.commit.Some? ==>
          exists j: nat :: j < |audit| && IsAuthorizationFor(audit[j], r)
            && (Sensitive(r.request) ==> CheckpointBefore(audit, j, r)))
  }

  ghost predicate NamedID(e: AuditEvent) { e.kind == Authorized || e.kind == Checkpoint ==> e.confirmationID != "" }

  ghost predicate EventsBelong(g: Gate) {
    forall i | 0 <= i < |g.audit| ::
      && NamedID(g.audit[i]) && g.audit[i].requestID in g.requests
      && BoundTo(g.audit[i], g.requests[g.audit[i].requestID].request)
  }

  ghost predicate UsesID(e: AuditEvent, x: string) { e.kind == Authorized && e.confirmationID == x }
  ghost predicate ReservesID(e: AuditEvent, x: string) { e.kind == Checkpoint && e.confirmationID == x }

  /** usedIDs holds exactly the IDs some authorization in the log used. */
  ghost predicate UsedMatchesLog(g: Gate) {
    && (forall i | 0 <= i < |g.audit| && g.audit[i].kind == Authorized ::
          g.audit[i].confirmationID in g.usedIDs)
    && (forall x | x in g.usedIDs :: exists i :: 0 <= i < |g.audit| && UsesID(g.audit[i], x))
  }

  /** owners maps exactly the checkpointed IDs, each to the request that reserved it. */
  ghost predicate OwnersMatchLog(g: Gate) {
    && (forall i | 0 <= i < |g.audit| && g.audit[i].kind == Checkpoint ::
          && g.audit[i].confirmationID in g.owners
          && g.owners[g.audit[i].confirmationID] == g.audit[i].requestID)
    && (forall x | x in g.owners :: exists i :: 0 <= i < |g.audit| && ReservesID(g.audit[i], x))
  }

  ghost predicate RecordsGood(g: Gate, clock: Time) {
    forall id | id in g.requests ::
      && g.requests[id].id == id && GoodRecord(g.requests[id], g.policyEpoch, clock)
      && Trail(g.audit, g.requests[id])
  }

  ghost predicate GateOK(g: Gate, clock: Time) {
    RecordsGood(g, clock) && EventsBelong(g) && UsedMatchesLog(g) && OwnersMatchLog(g)
  }

  // ----- the ledger

  /** The audit events of one request, in order. */
  ghost function EventsOf(audit: seq<AuditEvent>, id: string): seq<AuditEvent> {
    if audit == [] then []
    else
      var e := audit[|audit| - 1];
      EventsOf(audit[..|audit| - 1], id) + if e.requestID == id then [e] else []
  }

  ghost function Stored(r: Record, events: seq<AuditEvent>): Entry {
    Entry(r, r.request.workflowDigest, Seal(events))
  }

  ghost predicate MirrorsRequest(g: Gate, l: Ledger, id: string)
    requires id in g.requests
  {
    && id in l.records && EventsOf(g.audit, id) != []
    && l.records[id] == Stored(g.requests[id], EventsOf(g.audit, id))
  }

  /** The ledger's record and sealed chain of each request are the gate's record and its
      events renumbered from 1, and no key beyond them has been spent. */
  ghost predicate Mirrors(g: Gate, l: Ledger) {
    && l.records.Keys == g.requests.Keys
    && (forall id | id in g.requests :: MirrorsRequest(g, l, id))
    && (forall id: string :: DurableSequence(g, id) == |EventsOf(g.audit, id)|)
    && (forall id: string, n: nat | n > DurableSequence(g, id) :: Key(id, n) !in l.idempotency)
  }

  ghost predicate Inv(w: World, clock: Time) {
    GateOK(w.gate, clock) && (w.ledger.Some? ==> Mirrors(w.gate, w.ledger.value))
  }
}
