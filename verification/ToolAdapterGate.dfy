/** What the gate calls the adapter makes do to a single record. */
module ToolAdapterGate {
  import opened Wrappers
  import opened ApprovalTypes
  import opened ApprovalRules
  import opened ApprovalGate
  import opened GateInvariant
  import T = GateTheorems
  import M = GateMoves

  lemma SubmitRecords(w: World, now: Time, raw: Request, refuse: bool)
    ensures Submit(w, now, raw, refuse).1.Err? ==> Submit(w, now, raw, refuse).0 == w
    ensures Submit(w, now, raw, refuse).1.Ok? ==>
      var (w', answer) := Submit(w, now, raw, refuse);
      && raw.id !in w.gate.requests && AdmitRequest(w.gate, raw).Ok?
      && answer.value == NewRecord(now, AdmitRequest(w.gate, raw).value)
      && w'.gate.requests == w.gate.requests[raw.id := answer.value]
  {
    hide NormalizeRequest, ValidateRequest, NewRecord, Persist;
    var admitted := AdmitRequest(w.gate, raw);
    if admitted.Ok? {
      var g := AfterSubmit(w.gate, now, admitted.value);
      if Persist(w, g, raw.id, refuse).Ok? { T.PersistKeepsGate(w, g, raw.id, refuse); }
    }
  }

  /** A high-risk request is stored as it was asked for, waiting and unconfirmed. */
  lemma HighRiskRecord(g: Gate, now: Time, raw: Request)
    requires AdmitRequest(g, raw).Ok? && raw.risk == High && !raw.preApproved && raw.intentDigest.ToolIntentHash?
    ensures var r := NewRecord(now, AdmitRequest(g, raw).value);
      && r.status == Pending && r.submittedAt == now && r.expiresAt == now + raw.ttl
      && r.confirmation == NO_CONFIRMATION && r.request.risk == High && !r.request.preApproved
      && r.request.actor == raw.actor && r.request.sessionID == raw.sessionID && r.request.scope == raw.scope
      && r.request.intentDigest == raw.intentDigest
  {
    hide ValidateRequest, NormalizeLanguage, WellFormedNames, ValidOpaqueToken;
  }

  /** Request id keeps what it was submitted with; nothing else changes; revoked stays revoked. */
  ghost predicate Touches(m: map<string, Record>, m': map<string, Record>, id: string) {
    && m'.Keys == m.Keys && (forall x | x in m && x != id :: m'[x] == m[x])
    && (id in m ==>
          && m'[id].request == m[id].request && m'[id].submittedAt == m[id].submittedAt
          && m'[id].expiresAt == m[id].expiresAt && (m[id].status == Revoked ==> m'[id].status == Revoked))
  }

  lemma DecidedWarning(g: Gate, now: Time, id: string, raw: Confirmation)
    requires id in g.requests
    ensures var d := Decide(g, now, id, raw); d.Check? || d.Authorize? ==> d.c.warningReadAt == raw.warningReadAt
    ensures g.requests[id].status == Revoked ==> Decide(g, now, id, raw).Reject?
  {
    hide ConfirmationChecks, SameCheckpoint, Sensitive;
  }

  lemma AfterConfirmRecord(g: Gate, now: Time, id: string, c: Confirmation)
    requires id in g.requests
    ensures var m, m' := g.requests, AfterConfirm(g, now, id, c).requests;
      && Touches(m, m', id)
      && (m'[id].confirmation == m[id].confirmation || m'[id].confirmation.warningReadAt == c.warningReadAt)
  {
    DecidedWarning(g, now, id, c);
    hide Decide, MakeEvent, CommitFor;
  }

  lemma ConfirmRecord(w: World, now: Time, id: string, c: Confirmation, refuse: bool)
    requires id in w.gate.requests
    ensures var m, m' := w.gate.requests, Confirm(w, now, id, c, refuse).0.gate.requests;
      && Touches(m, m', id)
      && (m'[id].confirmation == m[id].confirmation || m'[id].confirmation.warningReadAt == c.warningReadAt)
  {
    hide Persist, AfterConfirm, ConfirmAnswer;
    var g := AfterConfirm(w.gate, now, id, c);
    AfterConfirmRecord(w.gate, now, id, c);
    if Persist(w, g, id, refuse).Ok? { T.PersistKeepsGate(w, g, id, refuse); }
  }

  lemma RevokeRecord(w: World, now: Time, id: string, actor: string, reason: string, refuse: bool)
    ensures var (w', answer) := Revoke(w, now, id, actor, reason, refuse); var m, m' := w.gate.requests, w'.gate.requests;
      && Touches(m, m', id) && (id in m ==> m'[id].confirmation == m[id].confirmation)
      && (answer.Fail? ==> w' == w)
      && (id in m && (answer.Pass? || answer.error == RevokedError || answer.error == ExpiredError) ==>
            m'[id].status == Revoked)
  {
    hide Persist, MakeEvent, AllSpace, ValidReason, ValidOpaque;
    if RevokeChecks(w.gate, id, actor, reason).Pass? {
      var g := Withdraw(w.gate, now, id, actor, "", reason);
      T.PersistErrors(w, g, id, refuse);
      if Persist(w, g, id, refuse).Ok? { T.PersistKeepsGate(w, g, id, refuse); }
    }
  }

  /** An approved high-risk record whose commit is from somebody else and late enough after the warning, and
      whose authorization the log shows after a checkpoint of the same confirmation. */
  ghost predicate Vouched(audit: seq<AuditEvent>, r: Record) {
    && Answers(r)
    && exists i: nat, j: nat :: i < j < |audit| && IsCheckpointFor(audit[i], r) && IsAuthorizationFor(audit[j], r)
  }

  lemma ApprovedIsVouched(g: Gate, id: string, clock: Time)
    requires GateOK(g, clock) && id in g.requests && g.requests[id].status == Approved
    requires g.requests[id].request.risk == High && !g.requests[id].request.preApproved
    ensures Vouched(g.audit, g.requests[id]) && g.requests[id].expiresAt != 0 && g.requests[id].id == id
  {
    hide *;
    var r := g.requests[id];
    M.RecordAt(g, id, clock);
    ApprovedHasCommit(r, g.policyEpoch, clock);
    ApprovedRecord(r, g.policyEpoch, clock);
    HighIsSensitive(r.request);
    var i, j := TrailOfApproval(g.audit, r);
    VouchedBy(g.audit, r, i, j);
  }

  lemma ApprovedHasCommit(r: Record, epoch: nat, clock: Time)
    requires GoodRecord(r, epoch, clock) && r.status == Approved
    ensures r.commit.Some?
  {
    hide ValidateRecord, SoundApproval, SoundConfirmation;
    T.ApprovedIffCommit(r);
  }

  lemma TrailOfApproval(audit: seq<AuditEvent>, r: Record) returns (i: nat, j: nat)
    requires Trail(audit, r) && r.commit.Some? && Sensitive(r.request)
    ensures i < j < |audit| && IsCheckpointFor(audit[i], r) && IsAuthorizationFor(audit[j], r)
  {
    hide Sensitive, IsCheckpointFor, IsAuthorizationFor;
    j :| j < |audit| && IsAuthorizationFor(audit[j], r) && (Sensitive(r.request) ==> CheckpointBefore(audit, j, r));
    i :| 0 <= i < j && IsCheckpointFor(audit[i], r);
  }

  ghost predicate Answers(r: Record) {
    r.commit.Some? &&
    var k := r.commit.value;
    && k.expiresAt == r.expiresAt && k.requestID == r.id && k.confirmationID == r.confirmation.confirmationID != ""
    && k.actor != r.request.actor && k.sessionID != r.request.sessionID
    && k.intentDigest == r.request.intentDigest && k.scope == r.request.scope
    && r.confirmation.warningReadAt + WARNING_DELAY <= k.issuedAt
  }

  lemma VouchedBy(audit: seq<AuditEvent>, r: Record, i: nat, j: nat)
    requires Answers(r) && i < j < |audit| && IsCheckpointFor(audit[i], r) && IsAuthorizationFor(audit[j], r)
    ensures Vouched(audit, r)
  {
    hide Answers, IsCheckpointFor, IsAuthorizationFor;
  }

  lemma HighIsSensitive(r: Request)
    requires r.risk == High
    ensures Sensitive(r)
  {
  }

  lemma ApprovedRecord(r: Record, epoch: nat, clock: Time)
    requires GoodRecord(r, epoch, clock) && r.status == Approved && r.commit.Some?
    requires r.request.risk == High && !r.request.preApproved
    ensures Answers(r) && r.expiresAt != 0
  {
    hide ValidateRequest, ExpectedPhrase, ValidOpaque, InteractiveConfirmation, SoundConfirmation;
  }
}
