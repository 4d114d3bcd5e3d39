/** Each record a gate call writes is good: it passes the adapter's check, now
    and after a reload, and keeps the provenance of its approval. */
module GateRecords {
  import opened Wrappers
  import opened ApprovalTypes
  import opened ApprovalRules
  import opened ApprovalGate
  import opened GateInvariant

  lemma PreApprovedIsIdentifier(req: Request)
    requires ValidIdentifier(req.id)
    ensures ValidIdentifier(PreApprovedID(req))
  {
    var s := PreApprovedID(req);
    forall i | 0 <= i < |s|
      ensures !Forbidden(s[i])
    {
      if i < 12 { assert s[i] == "preapproved:"[i]; } else { assert s[i] == req.id[i - 12]; }
    }
  }

  lemma NewRecordGood(now: Time, req: Request, clock: Time)
    requires ValidateRequest(req).Pass? && 0 < now <= clock
    ensures GoodRecord(NewRecord(now, req), req.policyEpoch, clock)
    ensures NewRecord(now, req).id == req.id && NewRecord(now, req).request == req
  {
    PreApprovedIsIdentifier(req);
    hide NormalizeLanguage, Forbidden, PreApprovedID, SensitiveScope;
  }

  /** What Decide established when it lets a confirmation through. */
  lemma AcceptedConfirmation(g: Gate, now: Time, id: string, raw: Confirmation)
    requires id in g.requests && ConfirmationChecks(g, now, id, raw).Pass?
    ensures var c, req := raw, g.requests[id].request;
      && c.policyEpoch == req.policyEpoch && c.scope == req.scope && ValidIdentifier(c.actor)
      && ValidIdentifier(c.confirmationID) && c.confirmationID !in g.usedIDs
      && (c.confirmationID in g.owners ==> g.owners[c.confirmationID] == id)
      && c.local && ValidIdentifier(c.sessionID)
      && (HighRisk(req) ==> c.actor != req.actor && c.sessionID != req.sessionID)
      && (!HighRisk(req) ==> c.sessionID == req.sessionID)
      && ExpectedPhrase(req.language) == Some(c.phrase) && c.phrase != ""
      && c.intentDigest == req.intentDigest && c.workflowDigest == req.workflowDigest
      && c.nonce == req.nonce && c.warningReadAt != 0
      && c.warningReadAt + WARNING_DELAY <= now
      && (c.passwordConfirmed || c.totpConfirmed) && c.secondConfirmation
      && (req.risk == Emergency ==> BreakGlassChecks(req, c).Pass?)
  {
    hide NormalizeLanguage, Forbidden;
  }

  lemma ExpiredGood(r: Record, epoch: nat, clock: Time)
    requires GoodRecord(r, epoch, clock) && r.status == Pending
    ensures GoodRecord(r.(status := Expired), epoch, clock)
  {
    hide NormalizeLanguage, Forbidden, ValidateRequest, ExpectedPhrase, ValidOpaque, AutoApproved;
  }

  lemma WithdrawnGood(r: Record, epoch: nat, clock: Time)
    requires GoodRecord(r, epoch, clock)
    ensures GoodRecord(r.(status := Revoked, commit := None), epoch, clock)
  {
    hide NormalizeLanguage, Forbidden, ValidateRequest, ExpectedPhrase, ValidOpaque, AutoApproved;
  }

  lemma PendingHasNoCommit(r: Record)
    requires ValidateRecord(r).Pass? && r.status != Approved
    ensures r.commit.None?
  {
    hide NormalizeLanguage, Forbidden, ValidateRequest, ExpectedPhrase, ValidOpaque;
  }

  lemma CheckpointGood(g: Gate, now: Time, id: string, raw: Confirmation, clock: Time)
    requires id in g.requests && GoodRecord(g.requests[id], g.policyEpoch, clock)
    requires Decide(g, now, id, raw).Check? && Decide(g, now, id, raw).first
    ensures GoodRecord(g.requests[id].(confirmation := Decide(g, now, id, raw).c), g.policyEpoch, clock)
  {
    AcceptedConfirmation(g, now, id, raw);
    PendingHasNoCommit(g.requests[id]);
    hide NormalizeLanguage, Forbidden, ValidateRequest, ExpectedPhrase, ValidOpaque, AutoApproved,
      ConfirmationChecks, SameCheckpoint;
  }

  /** The record Confirm writes when it authorizes. */
  ghost function AuthorizedRecord(r: Record, now: Time, c: Confirmation): Record {
    r.(status := Approved, confirmation := c, commit := Some(CommitFor(r, now, c)))
  }

  lemma AuthorizedIsSound(g: Gate, now: Time, id: string, raw: Confirmation)
    requires id in g.requests && Decide(g, now, id, raw).Authorize?
    ensures var c, r := Decide(g, now, id, raw).c, g.requests[id];
      && SoundConfirmation(AuthorizedRecord(r, now, c))
      && SoundApproval(AuthorizedRecord(r, now, c), CommitFor(r, now, c))
      && InteractiveConfirmation(AuthorizedRecord(r, now, c)) && c.confirmationID != ""
  {
    AcceptedConfirmation(g, now, id, raw);
    hide ExpectedPhrase, ValidOpaque, AutoApproved, ConfirmationChecks, SameCheckpoint, AllSpace,
      ValidReason;
  }

  lemma AuthorizedIsValid(g: Gate, now: Time, id: string, raw: Confirmation, clock: Time)
    requires id in g.requests && GoodRecord(g.requests[id], g.policyEpoch, clock)
    requires g.requests[id].id == id && g.requests[id].submittedAt <= now
    requires Decide(g, now, id, raw).Authorize?
    ensures ValidateRecord(AuthorizedRecord(g.requests[id], now, Decide(g, now, id, raw).c)).Pass?
  {
    AcceptedConfirmation(g, now, id, raw);
    AuthorizedIsSound(g, now, id, raw);
    hide NormalizeLanguage, ValidateRequest, ExpectedPhrase, ValidOpaque, AutoApproved,
      ConfirmationChecks, SameCheckpoint, InteractiveConfirmation, BreakGlassChecks;
  }

  lemma AuthorizedGood(g: Gate, now: Time, id: string, raw: Confirmation, clock: Time)
    requires id in g.requests && GoodRecord(g.requests[id], g.policyEpoch, clock)
    requires g.requests[id].id == id && g.requests[id].submittedAt <= now
    requires Decide(g, now, id, raw).Authorize?
    ensures GoodRecord(AuthorizedRecord(g.requests[id], now, Decide(g, now, id, raw).c),
                       g.policyEpoch, clock)
  {
    hide ValidateRecord, SoundConfirmation, SoundApproval, Decide;
    AuthorizedIsSound(g, now, id, raw);
    AuthorizedIsValid(g, now, id, raw, clock);
  }
}
