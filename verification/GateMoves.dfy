/** Each kind of call is a move the invariant allows. */
module GateMoves {
  import opened Wrappers
  import opened ApprovalTypes
  import opened ApprovalRules
  import opened ApprovalLedger
  import opened ApprovalGate
  import opened GateInvariant
  import opened GateRecords
  import opened GateWrites
  import opened GateSafety

  /** An event made for a known request is bound to it. */
  lemma MadeEventIsIssued(g: Gate, now: Time, kind: AuditType, id: string, actor: string, scope: string,
                          epoch: nat, confirmationID: string, reason: Reason)
    requires id in g.requests && g.requests[id].request.id == id && now > 0
    requires scope == g.requests[id].request.scope && epoch == g.requests[id].request.policyEpoch
    ensures Issued(MakeEvent(g, now, kind, id, actor, scope, epoch, confirmationID, reason), g.requests[id])
  {
  }

  /** g1 changes one record and the replay sets of g, before the change is logged. */
  ghost predicate Edits(g: Gate, g1: Gate, id: string) {
    && id in g1.requests && g1.requests[id].id == id
    && g1.policyEpoch == g.policyEpoch && g1.durable == g.durable && g1.audit == g.audit
    && g1.requests == g.requests[id := g1.requests[id]]
    && (id in g.requests ==>
          && g.requests[id].request == g1.requests[id].request
          && g.requests[id].expiresAt == g1.requests[id].expiresAt)
  }

  lemma LoggedMove(g: Gate, g1: Gate, id: string, e: AuditEvent, now: Time)
    requires Edits(g, g1, id) && GoodRecord(g1.requests[id], g.policyEpoch, now)
    requires NamedID(e) && Issued(e, g1.requests[id])
    requires Trail(g.audit + [e], g1.requests[id]) && SetsFollow(g, g1, id, [e])
    ensures Moves(g, AppendAudit(g1, e), id, [e], now)
  {
    hide GoodRecord, Trail, Issued, NamedID;
    assert SetsFollow(g, AppendAudit(g1, e), id, [e]);
  }

  /** The event AfterConfirm logs. */
  ghost function ConfirmEvent(g: Gate, now: Time, id: string, raw: Confirmation): AuditEvent
    requires id in g.requests
  {
    AfterConfirm(g, now, id, raw).audit[|g.audit|]
  }

  ghost predicate ConfirmIsMove(g: Gate, now: Time, id: string, raw: Confirmation, clock: Time)
    requires id in g.requests
  {
    Moves(g, AfterConfirm(g, now, id, raw), id, [ConfirmEvent(g, now, id, raw)], clock)
  }

  /** A call on a known request of a good gate; its time may lag behind the clock that
      bounds all submissions, but not behind this request's own. */
  ghost predicate Callable(g: Gate, now: Time, id: string, clock: Time) {
    GateOK(g, clock) && now > 0 && id in g.requests && g.requests[id].submittedAt <= now
  }

  lemma RecordAt(g: Gate, id: string, clock: Time)
    requires GateOK(g, clock) && id in g.requests
    ensures var r := g.requests[id];
      && r.id == id && r.request.id == id && Storable(r) && GoodRecord(r, g.policyEpoch, clock)
      && Trail(g.audit, r)
  {
    GoodRecordID(g.requests[id], g.policyEpoch, clock);
    hide Trail, ValidateRecord, SoundConfirmation, SoundApproval, AutoApproved, Storable;
  }

  lemma RejectMoves(g: Gate, now: Time, id: string, raw: Confirmation, clock: Time)
    requires Callable(g, now, id, clock) && Decide(g, now, id, raw).Reject?
    ensures ConfirmIsMove(g, now, id, raw, clock)
  {
    hide GoodRecord, Trail, Decide, GateOK, Storable, Issued, Moves;
    RecordAt(g, id, clock);
    var r, e := g.requests[id], ConfirmEvent(g, now, id, raw);
    MadeEventIsIssued(g, now, Rejected, id, raw.actor, r.request.scope, r.request.policyEpoch,
                      raw.confirmationID, Because(Decide(g, now, id, raw).error));
    assert AfterConfirm(g, now, id, raw) == AppendAudit(g, e);
    TrailExtends(g.audit, [e], r);
    assert g.requests == g.requests[id := r];
    LoggedMove(g, g, id, e, clock);
  }

  lemma ExpireMoves(g: Gate, now: Time, id: string, raw: Confirmation, clock: Time)
    requires Callable(g, now, id, clock) && Decide(g, now, id, raw).Expire?
    ensures ConfirmIsMove(g, now, id, raw, clock)
  {
    hide GoodRecord, Trail, Decide, GateOK, Storable, Issued, Moves;
    RecordAt(g, id, clock);
    DecidedPending(g, now, id, raw);
    var r, e := g.requests[id], ConfirmEvent(g, now, id, raw);
    ExpiredGood(r, g.policyEpoch, clock);
    RecordCommit(r, g.policyEpoch, clock);
    var g1 := g.(requests := g.requests[id := r.(status := Expired)]);
    MadeEventIsIssued(g1, now, ExpiredEvent, id, raw.actor, r.request.scope, r.request.policyEpoch,
                      raw.confirmationID, Plain("TTL elapsed"));
    assert AfterConfirm(g, now, id, raw) == AppendAudit(g1, e);
    TrailExtends(g.audit, [e], r);
    TrailOfSameConfirmation(g.audit + [e], r, g1.requests[id]);
    LoggedMove(g, g1, id, e, clock);
  }

  lemma DecidedPending(g: Gate, now: Time, id: string, raw: Confirmation)
    requires id in g.requests && !Decide(g, now, id, raw).Reject?
    ensures g.requests[id].status == Pending
    ensures !Decide(g, now, id, raw).Expire? ==> ConfirmationChecks(g, now, id, raw).Pass?
  {
    hide ConfirmationChecks, SameCheckpoint;
  }

  lemma RecordCommit(r: Record, epoch: nat, clock: Time)
    requires GoodRecord(r, epoch, clock) && r.status == Pending
    ensures r.commit.None?
  {
    hide ValidateRecord;
    PendingHasNoCommit(r);
  }

  /** A record without a commit has the trail of its confirmation alone. */
  lemma TrailOfSameConfirmation(audit: seq<AuditEvent>, r: Record, r': Record)
    requires Trail(audit, r) && r'.request == r.request && r'.confirmation == r.confirmation
    requires r'.commit.None?
    ensures Trail(audit, r')
  {
    hide BoundTo;
    if Sensitive(r.request) && r.confirmation.confirmationID != "" {
      var i :| 0 <= i < |audit| && IsCheckpointFor(audit[i], r);
      assert IsCheckpointFor(audit[i], r');
    }
  }

  /** The confirmation behind a checkpoint or an authorization fits the request. */
  ghost predicate Fits(g: Gate, now: Time, id: string, c: Confirmation)
    requires id in g.requests
  {
    var req := g.requests[id].request;
    && c.scope == req.scope && c.policyEpoch == req.policyEpoch && c.confirmationID != ""
    && c.confirmationID !in g.usedIDs
    && (c.confirmationID in g.owners ==> g.owners[c.confirmationID] == id)
    && c.warningReadAt + WARNING_DELAY <= now
  }

  lemma DecidedFits(g: Gate, now: Time, id: string, raw: Confirmation)
    requires id in g.requests && ConfirmationChecks(g, now, id, raw).Pass?
    ensures Fits(g, now, id, raw)
  {
    hide ConfirmationChecks, ExpectedPhrase, BreakGlassChecks;
    AcceptedConfirmation(g, now, id, raw);
  }

  lemma CheckedConfirmation(g: Gate, now: Time, id: string, raw: Confirmation)
    requires id in g.requests && Decide(g, now, id, raw).Check?
    ensures var r, d := g.requests[id], Decide(g, now, id, raw);
      && Fits(g, now, id, d.c) && Sensitive(r.request)
      && (!d.first ==> r.confirmation.confirmationID == d.c.confirmationID)
  {
    DecidedPending(g, now, id, raw);
    DecidedFits(g, now, id, raw);
    hide ConfirmationChecks;
  }

  lemma FirstCheckMoves(g: Gate, now: Time, id: string, raw: Confirmation, clock: Time)
    requires Callable(g, now, id, clock)
    requires Decide(g, now, id, raw).Check? && Decide(g, now, id, raw).first
    ensures ConfirmIsMove(g, now, id, raw, clock)
  {
    hide GoodRecord, Decide, GateOK, Storable, Moves, Trail, Issued;
    RecordAt(g, id, clock);
    DecidedPending(g, now, id, raw);
    CheckedConfirmation(g, now, id, raw);
    CheckpointGood(g, now, id, raw, clock);
    var r, e, c := g.requests[id], ConfirmEvent(g, now, id, raw), Decide(g, now, id, raw).c;
    RecordCommit(r, g.policyEpoch, clock);
    var g1 := g.(requests := g.requests[id := r.(confirmation := c)],
                 owners := g.owners[c.confirmationID := id]);
    MadeEventIsIssued(g1, now, Checkpoint, id, c.actor, c.scope, c.policyEpoch, c.confirmationID,
                      Plain(CHECKPOINT_REASON));
    assert AfterConfirm(g, now, id, raw) == AppendAudit(g1, e);
    CheckpointTrail(g.audit, e, g1.requests[id]);
    assert ReservesID([e][0], c.confirmationID);
    LoggedMove(g, g1, id, e, clock);
  }

  lemma CheckpointTrail(audit: seq<AuditEvent>, e: AuditEvent, r: Record)
    requires r.commit.None? && Issued(e, r) && e.kind == Checkpoint
    requires e.confirmationID == r.confirmation.confirmationID && e.actor == r.confirmation.actor
    requires r.confirmation.warningReadAt + WARNING_DELAY <= e.at
    ensures Trail(audit + [e], r)
  {
    hide BoundTo;
    assert IsCheckpointFor((audit + [e])[|audit|], r);
  }

  lemma RepeatedCheckMoves(g: Gate, now: Time, id: string, raw: Confirmation, clock: Time)
    requires Callable(g, now, id, clock)
    requires Decide(g, now, id, raw).Check? && !Decide(g, now, id, raw).first
    ensures ConfirmIsMove(g, now, id, raw, clock)
  {
    hide GoodRecord, Decide, Storable, Moves, Trail, Issued, RecordsGood, EventsBelong,
      UsedMatchesLog, OwnersMatchLog;
    RecordAt(g, id, clock);
    CheckedConfirmation(g, now, id, raw);
    ReservedByTrail(g, id, clock);
    var r, e, c := g.requests[id], ConfirmEvent(g, now, id, raw), Decide(g, now, id, raw).c;
    MadeEventIsIssued(g, now, Checkpoint, id, c.actor, c.scope, c.policyEpoch, c.confirmationID,
                      Plain(CHECKPOINT_REASON));
    assert AfterConfirm(g, now, id, raw) == AppendAudit(g, e);
    TrailExtends(g.audit, [e], r);
    assert g.requests == g.requests[id := r];
    LoggedMove(g, g, id, e, clock);
  }

  /** The ID of a sensitive request's confirmation is reserved for that request. */
  lemma ReservedByTrail(g: Gate, id: string, clock: Time)
    requires GateOK(g, clock) && id in g.requests && g.requests[id].request.id == id
    requires Sensitive(g.requests[id].request) && g.requests[id].confirmation.confirmationID != ""
    ensures g.requests[id].confirmation.confirmationID in g.owners
    ensures g.owners[g.requests[id].confirmation.confirmationID] == id
  {
    hide GoodRecord, UsedMatchesLog, EventsBelong;
    assert Trail(g.audit, g.requests[id]);
    var i :| 0 <= i < |g.audit| && IsCheckpointFor(g.audit[i], g.requests[id]);
  }

  lemma AuthorizeMoves(g: Gate, now: Time, id: string, raw: Confirmation, clock: Time)
    requires Callable(g, now, id, clock) && Decide(g, now, id, raw).Authorize?
    ensures ConfirmIsMove(g, now, id, raw, clock)
  {
    hide GoodRecord, Decide, GateOK, Storable, Moves, Trail, Issued;
    RecordAt(g, id, clock);
    AuthorizedConfirmation(g, now, id, raw);
    AuthorizedGood(g, now, id, raw, clock);
    var r, e, c := g.requests[id], ConfirmEvent(g, now, id, raw), Decide(g, now, id, raw).c;
    var r' := r.(status := Approved, confirmation := c, commit := Some(CommitFor(r, now, c)));
    var g1 := g.(requests := g.requests[id := r'], usedIDs := g.usedIDs + {c.confirmationID});
    MadeEventIsIssued(g1, now, Authorized, id, c.actor, c.scope, c.policyEpoch, c.confirmationID,
                      Plain("interactive confirmation"));
    assert AfterConfirm(g, now, id, raw) == AppendAudit(g1, e);
    AuthorizedTrail(g.audit, e, r, r');
    assert UsesID([e][0], c.confirmationID);
    LoggedMove(g, g1, id, e, clock);
  }

  ghost predicate CompletesCheckpoint(r: Record, c: Confirmation) {
    Sensitive(r.request) ==>
      && r.confirmation.confirmationID == c.confirmationID && c.confirmationID != ""
      && r.confirmation.actor == c.actor && r.confirmation.warningReadAt == c.warningReadAt
  }

  lemma AuthorizedConfirmation(g: Gate, now: Time, id: string, raw: Confirmation)
    requires id in g.requests && Decide(g, now, id, raw).Authorize?
    ensures Fits(g, now, id, Decide(g, now, id, raw).c)
    ensures CompletesCheckpoint(g.requests[id], Decide(g, now, id, raw).c)
  {
    DecidedPending(g, now, id, raw);
    DecidedFits(g, now, id, raw);
    hide ConfirmationChecks;
  }

  lemma AuthorizedTrail(audit: seq<AuditEvent>, e: AuditEvent, r: Record, r': Record)
    requires Trail(audit, r) && r'.request == r.request && CompletesCheckpoint(r, r'.confirmation)
    requires Issued(e, r') && e.kind == Authorized && r'.commit.Some?
    requires e.confirmationID == r'.commit.value.confirmationID
    requires e.actor == r'.commit.value.actor && e.at == r'.commit.value.issuedAt
    ensures Trail(audit + [e], r')
  {
    hide BoundTo;
    assert IsAuthorizationFor((audit + [e])[|audit|], r');
    if Sensitive(r.request) {
      var i :| 0 <= i < |audit| && IsCheckpointFor(audit[i], r);
      assert IsCheckpointFor((audit + [e])[i], r');
      assert CheckpointBefore(audit + [e], |audit|, r');
    }
  }

  lemma ConfirmMoves(g: Gate, now: Time, id: string, raw: Confirmation, clock: Time)
    requires Callable(g, now, id, clock)
    ensures ConfirmIsMove(g, now, id, raw, clock)
  {
    hide ConfirmIsMove, AfterConfirm, Decide, GateOK;
    match Decide(g, now, id, raw)
    case Reject(_) => RejectMoves(g, now, id, raw, clock);
    case Expire => ExpireMoves(g, now, id, raw, clock);
    case Check(_, first) =>
      if first { FirstCheckMoves(g, now, id, raw, clock); }
      else { RepeatedCheckMoves(g, now, id, raw, clock); }
    case Authorize(_) => AuthorizeMoves(g, now, id, raw, clock);
  }

  lemma WithdrawMoves(g: Gate, now: Time, id: string, actor: string, confirmationID: string,
                      reason: string, clock: Time)
    requires GateOK(g, clock) && now > 0 && id in g.requests
    ensures var g' := Withdraw(g, now, id, actor, confirmationID, reason);
      Moves(g, g', id, [g'.audit[|g.audit|]], clock)
  {
    hide GoodRecord, Trail, GateOK, Storable, Issued, Moves;
    RecordAt(g, id, clock);
    var r := g.requests[id];
    WithdrawnGood(r, g.policyEpoch, clock);
    var g' := Withdraw(g, now, id, actor, confirmationID, reason);
    var g1, e := g.(requests := g'.requests), g'.audit[|g.audit|];
    MadeEventIsIssued(g1, now, RevokedEvent, id, actor, r.request.scope, r.request.policyEpoch,
                      confirmationID, Plain(reason));
    assert g' == AppendAudit(g1, e);
    TrailExtends(g.audit, [e], r);
    TrailOfSameConfirmation(g.audit + [e], r, g1.requests[id]);
    LoggedMove(g, g1, id, e, clock);
  }

  // ----- Submit

  ghost function SubmitEvents(g: Gate, now: Time, req: Request): seq<AuditEvent>
    requires ValidateRequest(req).Pass?
  {
    AfterSubmit(g, now, req).audit[|g.audit|..]
  }

  lemma SubmitMoves(g: Gate, now: Time, req: Request, clock: Time)
    requires 0 < now <= clock && ValidateRequest(req).Pass?
    requires req.policyEpoch == g.policyEpoch && req.id !in g.requests
    ensures Moves(g, AfterSubmit(g, now, req), req.id, SubmitEvents(g, now, req), clock)
  {
    hide GoodRecord, NewRecord, Moves, Issued, Trail, ValidateRequest;
    NewRecordGood(now, req, clock);
    NewRecordShape(now, req);
    var r := NewRecord(now, req);
    var g1 := g.(requests := g.requests[req.id := r]);
    var e1 := MakeEvent(g1, now, Submitted, req.id, req.actor, req.scope, req.policyEpoch, "", Plain(""));
    MadeEventIsIssued(g1, now, Submitted, req.id, req.actor, req.scope, req.policyEpoch, "", Plain(""));
    if r.status != Approved {
      UnconfirmedTrail(g.audit + [e1], r);
      LoggedMove(g, g1, req.id, e1, clock);
      assert AfterSubmit(g, now, req) == AppendAudit(g1, e1) && SubmitEvents(g, now, req) == [e1];
    } else {
      var id := r.commit.value.confirmationID;
      var g3 := AppendAudit(g1, e1).(usedIDs := g.usedIDs + {id});
      var e2 := MakeEvent(g3, now, Authorized, req.id, req.actor, req.scope, req.policyEpoch, id,
                          Plain("pre-approved"));
      MadeEventIsIssued(g3, now, Authorized, req.id, req.actor, req.scope, req.policyEpoch, id,
                        Plain("pre-approved"));
      PreApprovedMove(g, clock, req.id, r, e1, e2);
      assert AfterSubmit(g, now, req) == AppendAudit(g3, e2);
      assert SubmitEvents(g, now, req) == [e1, e2];
    }
  }

  lemma UnconfirmedTrail(audit: seq<AuditEvent>, r: Record)
    requires r.commit.None? && r.confirmation.confirmationID == ""
    ensures Trail(audit, r)
  {
  }

  /** A pre-approved submission logs its two events as one move. */
  lemma PreApprovedMove(g: Gate, now: Time, id: string, r: Record, e1: AuditEvent, e2: AuditEvent)
    requires id !in g.requests && r.id == id && GoodRecord(r, g.policyEpoch, now)
    requires Issued(e1, r) && Issued(e2, r) && e1.kind == Submitted && e2.kind == Authorized
    requires !Sensitive(r.request) && r.commit.Some? && e2.confirmationID == r.commit.value.confirmationID
    requires e2.confirmationID != "" && e2.actor == r.commit.value.actor && e2.at == r.commit.value.issuedAt
    ensures Moves(g, g.(requests := g.requests[id := r], usedIDs := g.usedIDs + {e2.confirmationID},
                        audit := g.audit + [e1] + [e2], sequence := g.sequence + 2), id, [e1, e2], now)
  {
    hide GoodRecord;
    var audit := g.audit + [e1] + [e2];
    assert audit == g.audit + [e1, e2] && audit[|g.audit| + 1] == e2;
    assert IsAuthorizationFor(audit[|g.audit| + 1], r);
    assert UsesID([e1, e2][1], e2.confirmationID);
  }

  lemma NewRecordShape(now: Time, req: Request)
    requires ValidateRequest(req).Pass?
    ensures var r := NewRecord(now, req);
      && (r.status == Approved <==> r.commit.Some?) && (r.commit.Some? ==>
           && !Sensitive(req) && r.commit.value.confirmationID != "" && r.commit.value.actor == req.actor
           && r.commit.value.issuedAt == now)
      && (r.commit.None? ==> r.confirmation.confirmationID == "")
  {
    hide ValidateRequest, ExpectedPhrase;
  }
}
