/** What each gate call answers and leaves, in terms of the world and its arguments: the calls succeed
    exactly when they should. */
module GateAnswers {
  import opened Wrappers
  import opened ApprovalTypes
  import opened ApprovalRules
  import opened ApprovalGate
  import opened GateInvariant
  import opened GateWrites
  import opened GateSafety
  import opened GateMoves
  import opened GateTheorems
  import opened GateChecks
  import P = GateProgress
  import F = GateFailures

  /** One request has a new record, and events were logged; the durable counters are the ledger's business. */
  ghost predicate Becomes(g: Gate, g': Gate, id: string, r: Record, events: seq<AuditEvent>) {
    && g'.requests == g.requests[id := r] && g'.audit == g.audit + events && g'.policyEpoch == g.policyEpoch
  }

  /** An event that tells what happened to a request. */
  ghost predicate Tells(e: AuditEvent, kind: AuditType, now: Time, r: Record, actor: string, confirmationID: string) {
    && e.kind == kind && e.at == now && e.requestID == r.id && e.actor == actor && e.confirmationID == confirmationID
    && e.scope == r.request.scope && e.policyEpoch == r.request.policyEpoch && e.intentDigest == r.request.intentDigest
    && e.workflowDigest == r.request.workflowDigest && e.sessionID == r.request.sessionID && e.nonce == r.request.nonce
  }

  // ----- Submit

  ghost predicate Routine(req: Request) { req.preApproved && req.risk == Low && !Sensitive(req) && !req.breakGlass }

  lemma NewRecordIs(now: Time, req: Request)
    requires ValidateRequest(req).Pass?
    ensures var r := NewRecord(now, req);
      && r.id == req.id && r.request == req && r.submittedAt == now && r.expiresAt == now + req.ttl
      && (if Routine(req) then
            && r.status == Approved && r.commit.Some? && r.commit.value.confirmationID == PREAPPROVED + req.id
            && r.commit.value.actor == req.actor && r.commit.value.issuedAt == now
            && r.confirmation.confirmationID == PREAPPROVED + req.id && r.confirmation.actor == req.actor
          else r.status == Pending && r.commit.None? && r.confirmation == NO_CONFIRMATION)
  {
    hide ValidateRequest, ExpectedPhrase, Sensitive;
  }

  /** What a submission leaves. */
  ghost predicate Submits(w: World, w': World, now: Time, req: Request, r: Record) {
    && r.id == req.id && r.request == req && r.submittedAt == now && r.expiresAt == now + req.ttl
    && r.status == (if Routine(req) then Approved else Pending)
    && w'.gate.owners == w.gate.owners
    && w'.gate.usedIDs == w.gate.usedIDs + (if Routine(req) then {PREAPPROVED + req.id} else {})
    && |w'.gate.audit| == |w.gate.audit| + (if Routine(req) then 2 else 1)
    && Becomes(w.gate, w'.gate, req.id, r, w'.gate.audit[|w.gate.audit|..])
    && Tells(w'.gate.audit[|w.gate.audit|], Submitted, now, r, req.actor, "")
    && (Routine(req) ==> Tells(w'.gate.audit[|w.gate.audit| + 1], Authorized, now, r, req.actor, PREAPPROVED + req.id))
  }

  lemma SubmittedGate(g: Gate, now: Time, req: Request)
    requires ValidateRequest(req).Pass?
    ensures Submits(World(g, None), World(AfterSubmit(g, now, req), None), now, req, NewRecord(now, req))
  {
    NewRecordIs(now, req);
    hide ValidateRequest, NewRecord, Sensitive;
  }

  lemma SubmitsDespiteCounters(w: World, g: Gate, w': World, now: Time, req: Request, r: Record)
    requires Submits(World(w.gate, None), World(g, None), now, req, r) && w'.gate == g.(durable := w'.gate.durable)
    ensures Submits(w, w', now, req, r)
  {
    hide Tells, Routine;
  }

  lemma WillingSubmit(w: World, now: Time, raw: Request, clock: Time)
    requires Inv(w, clock) && 0 < now <= clock && AdmitRequest(w.gate, raw).Ok?
    ensures var g := AfterSubmit(w.gate, now, AdmitRequest(w.gate, raw).value);
      && Persist(w, g, raw.id, false).Ok?
      && Persist(w, g, raw.id, false).value.gate == g.(durable := Persist(w, g, raw.id, false).value.gate.durable)
  {
    hide Inv, Moves, ValidateRequest, NormalizeRequest, AfterSubmit, Persist, AdmitRequest, ValidOpaque;
    var req := AdmitRequest(w.gate, raw).value;
    F.AdmittedActor(w.gate, raw);
    F.InvGate(w, clock);
    SubmitMoves(w.gate, now, req, clock);
    F.SubmitLogsActor(w.gate, now, req);
    var g, added := AfterSubmit(w.gate, now, req), SubmitEvents(w.gate, now, req);
    F.SameActors(added, req.actor);
    F.MoveLogs(w.gate, g, req.id, added, clock);
    WrittenMove(w, g, req.id, added, false, clock, clock);
    P.NoLedger(w, g, req.id);
  }

  /** With a willing ledger a submission succeeds exactly when it is admissible, and then it is kept and
      logged; else nothing changes. */
  lemma SubmitIsExact(w: World, now: Time, raw: Request, clock: Time)
    requires Inv(w, clock) && 0 < now <= clock
    ensures var (w', a) := Submit(w, now, raw, false);
      && (a.Ok? <==> Admissible(w.gate, raw))
      && (a.Ok? ==> Submits(w, w', now, Kept(raw), a.value))
      && (!a.Ok? ==> w' == w)
  {
    hide Inv, Admissible, Kept, NewRecord, AfterSubmit, Persist, Submits, ValidateRequest, NormalizeRequest;
    AdmissionIff(w.gate, raw);
    AdmissibleLanguage(w.gate, raw);
    if AdmitRequest(w.gate, raw).Ok? {
      WillingSubmit(w, now, raw, clock);
      SubmittedGate(w.gate, now, Kept(raw));
      var g := AfterSubmit(w.gate, now, Kept(raw));
      SubmitsDespiteCounters(w, g, Persist(w, g, raw.id, false).value, now, Kept(raw), NewRecord(now, Kept(raw)));
    }
    hide AdmitRequest;
  }

  // ----- Confirm

  ghost predicate Ready(g: Gate, now: Time, id: string, c: Confirmation)
    requires id in g.requests
  {
    g.requests[id].status == Pending && now < g.requests[id].expiresAt && Acceptable(g, now, id, c)
  }

  /** The confirmation completes what its request needs. */
  ghost predicate Completes(g: Gate, now: Time, id: string, c: Confirmation)
    requires id in g.requests
  {
    var r := g.requests[id];
    && Ready(g, now, id, c)
    && (Sensitive(r.request) ==>
          c.thirdConfirmation && r.confirmation.confirmationID != "" && r.confirmation.step >= 2
          && GateChecks.Continues(r.confirmation, r.request, c))
  }

  /** The confirmation is the second click of a sensitive request. */
  ghost predicate Checkpoints(g: Gate, now: Time, id: string, c: Confirmation)
    requires id in g.requests
  {
    var r := g.requests[id];
    && Ready(g, now, id, c) && Sensitive(r.request) && !c.thirdConfirmation
    && (r.confirmation.confirmationID != "" ==> GateChecks.Continues(r.confirmation, r.request, c))
  }

  /** What a confirmation leaves, by what it is. */
  ghost predicate Confirms(g: Gate, g': Gate, now: Time, id: string, c: Confirmation)
    requires id in g.requests
  {
    var r := g.requests[id]; var first := r.confirmation.confirmationID == "";
    && |g'.audit| == |g.audit| + 1 &&
    var e := g'.audit[|g.audit|];
    if Completes(g, now, id, c) then
      var done := Stamped(r.request, c, if Sensitive(r.request) then 3 else 2);
      && Becomes(g, g', id, r.(status := Approved, confirmation := done, commit := Some(CommitFor(r, now, done))), [e])
      && g'.usedIDs == g.usedIDs + {c.confirmationID} && g'.owners == g.owners
      && Tells(e, Authorized, now, r, c.actor, c.confirmationID)
    else if Checkpoints(g, now, id, c) then
      && Becomes(g, g', id, if first then r.(confirmation := Stamped(r.request, c, 2)) else r, [e])
      && g'.usedIDs == g.usedIDs && g'.owners == (if first then g.owners[c.confirmationID := id] else g.owners)
      && Tells(e, Checkpoint, now, r, c.actor, c.confirmationID)
    else if r.status == Pending && r.expiresAt <= now then
      && Becomes(g, g', id, r.(status := Expired), [e]) && g'.usedIDs == g.usedIDs && g'.owners == g.owners
      && Tells(e, ExpiredEvent, now, r, c.actor, c.confirmationID)
    else
      && Becomes(g, g', id, r, [e]) && g'.usedIDs == g.usedIDs && g'.owners == g.owners
      && Tells(e, Rejected, now, r, c.actor, c.confirmationID) && e.reason.Because?
  }

  /** The four things Decide can say are the four things a confirmation can be. */
  lemma DecisionMeans(g: Gate, now: Time, id: string, c: Confirmation)
    requires id in g.requests
    ensures var r, d := g.requests[id], Decide(g, now, id, c);
      && (d.Authorize? <==> Completes(g, now, id, c)) && (d.Check? <==> Checkpoints(g, now, id, c))
      && (d.Expire? <==> r.status == Pending && r.expiresAt <= now)
      && (d.Authorize? ==> d.c == Stamped(r.request, c, if Sensitive(r.request) then 3 else 2))
      && (d.Check? ==> (d.first <==> r.confirmation.confirmationID == "") && (d.first ==> d.c == Stamped(r.request, c, 2)))
      && (d.Check? && !d.first ==> d.c == c.(language := r.request.language))
      && (d.Authorize? || d.Check? ==> c.scope == r.request.scope && c.policyEpoch == r.request.policyEpoch)
  {
    DecisionIff(g, now, id, c);
    AcceptableFits(g, now, id, c);
    hide Decide, Acceptable, GateChecks.Continues, Sensitive;
  }

  lemma ConfirmedAnswers(g: Gate, now: Time, id: string, c: Confirmation)
    requires id in g.requests
    ensures ConfirmAnswer(g, now, id, c).Ok? <==> Completes(g, now, id, c)
    ensures ConfirmAnswer(g, now, id, c) == Err(ThirdConfirmation) <==> Checkpoints(g, now, id, c)
  {
    DecisionMeans(g, now, id, c);
    RejectionErrors(g, now, id, c);
    hide Decide, Completes, Checkpoints, CommitFor, Sensitive;
  }

  lemma MadeTells(g: Gate, now: Time, kind: AuditType, id: string, r: Record, actor: string, confirmationID: string, reason: Reason)
    requires id in g.requests && g.requests[id].request == r.request && r.id == id
    ensures Tells(MakeEvent(g, now, kind, id, actor, r.request.scope, r.request.policyEpoch, confirmationID, reason),
                  kind, now, r, actor, confirmationID)
    ensures MakeEvent(g, now, kind, id, actor, r.request.scope, r.request.policyEpoch, confirmationID, reason).reason == reason
  {
  }

  lemma ConfirmedGate(g: Gate, now: Time, id: string, c: Confirmation)
    requires id in g.requests && g.requests[id].id == id
    ensures Confirms(g, AfterConfirm(g, now, id, c), now, id, c)
  {
    hide Decide, Completes, Checkpoints, CommitFor, Sensitive, MakeEvent, Tells;
    DecisionMeans(g, now, id, c);
    var r := g.requests[id];
    match Decide(g, now, id, c)
    case Authorize(done) => AuthorizedGate(g, now, id, c);
    case Check(d, first) => CheckedGate(g, now, id, c);
    case Expire =>
      MadeTells(g.(requests := g.requests[id := r.(status := Expired)]), now, ExpiredEvent, id, r, c.actor, c.confirmationID,
                Plain("TTL elapsed"));
    case Reject(e) =>
      assert g.requests[id := r] == g.requests;
      MadeTells(g, now, Rejected, id, r, c.actor, c.confirmationID, Because(e));
  }

  lemma AuthorizedGate(g: Gate, now: Time, id: string, c: Confirmation)
    requires id in g.requests && g.requests[id].id == id && Decide(g, now, id, c).Authorize?
    ensures Confirms(g, AfterConfirm(g, now, id, c), now, id, c)
  {
    hide Decide, Completes, Checkpoints, CommitFor, Sensitive, MakeEvent, Tells;
    DecisionMeans(g, now, id, c);
    var r, done := g.requests[id], Decide(g, now, id, c).c;
    var r' := r.(status := Approved, confirmation := done, commit := Some(CommitFor(r, now, done)));
    MadeTells(g.(requests := g.requests[id := r'], usedIDs := g.usedIDs + {done.confirmationID}), now, Authorized, id, r, c.actor,
              c.confirmationID, Plain("interactive confirmation"));
  }

  lemma CheckedGate(g: Gate, now: Time, id: string, c: Confirmation)
    requires id in g.requests && g.requests[id].id == id && Decide(g, now, id, c).Check?
    ensures Confirms(g, AfterConfirm(g, now, id, c), now, id, c)
  {
    hide Decide, Completes, Checkpoints, CommitFor, Sensitive, MakeEvent, Tells, Confirms, AfterConfirm;
    if Decide(g, now, id, c).first { FirstCheckedGate(g, now, id, c); } else { RepeatedCheckedGate(g, now, id, c); }
  }

  lemma FirstCheckedGate(g: Gate, now: Time, id: string, c: Confirmation)
    requires id in g.requests && g.requests[id].id == id && Decide(g, now, id, c).Check? && Decide(g, now, id, c).first
    ensures Confirms(g, AfterConfirm(g, now, id, c), now, id, c)
  {
    hide Decide, Completes, Checkpoints, CommitFor, Sensitive, MakeEvent, Tells;
    DecisionMeans(g, now, id, c);
    NotBoth(g, now, id, c);
    var r, d := g.requests[id], Decide(g, now, id, c).c;
    MadeTells(g.(requests := g.requests[id := r.(confirmation := d)], owners := g.owners[d.confirmationID := id]), now, Checkpoint,
              id, r, c.actor, c.confirmationID, Plain(CHECKPOINT_REASON));
  }

  lemma RepeatedCheckedGate(g: Gate, now: Time, id: string, c: Confirmation)
    requires id in g.requests && g.requests[id].id == id && Decide(g, now, id, c).Check? && !Decide(g, now, id, c).first
    ensures Confirms(g, AfterConfirm(g, now, id, c), now, id, c)
  {
    hide Decide, Completes, Checkpoints, CommitFor, Sensitive, MakeEvent, Tells;
    DecisionMeans(g, now, id, c);
    NotBoth(g, now, id, c);
    var r := g.requests[id];
    assert g.requests[id := r] == g.requests;
    MadeTells(g, now, Checkpoint, id, r, c.actor, c.confirmationID, Plain(CHECKPOINT_REASON));
  }

  lemma NotBoth(g: Gate, now: Time, id: string, c: Confirmation)
    requires id in g.requests
    ensures !(Completes(g, now, id, c) && Checkpoints(g, now, id, c))
  {
    hide Ready, Sensitive, GateChecks.Continues;
  }

  lemma AcceptableFits(g: Gate, now: Time, id: string, c: Confirmation)
    requires id in g.requests
    ensures Acceptable(g, now, id, c) ==>
      c.scope == g.requests[id].request.scope && c.policyEpoch == g.requests[id].request.policyEpoch
  {
    hide NormalizeLanguage, ExpectedPhrase, ValidOpaque, AllSpace, ValidReason;
  }

  lemma ConfirmsDespiteCounters(g: Gate, g1: Gate, g2: Gate, now: Time, id: string, c: Confirmation)
    requires id in g.requests && Confirms(g, g1, now, id, c) && g2 == g1.(durable := g2.durable)
    ensures Confirms(g, g2, now, id, c)
  {
    hide Completes, Checkpoints, Tells, Sensitive, CommitFor;
  }

  /** In every reachable world with a willing ledger, a confirmation with a well-formed actor of a known
      request is authorized exactly when it completes what the request needs, asks for the third click
      exactly when it is a second one, and leaves and logs what that means. */
  lemma ConfirmIsExact(w: World, now: Time, id: string, c: Confirmation, clock: Time)
    requires Inv(w, clock) && 0 < now && id in w.gate.requests && w.gate.requests[id].submittedAt <= now && ValidOpaque(c.actor)
    ensures var (w', a) := Confirm(w, now, id, c, false);
      && (a.Ok? <==> Completes(w.gate, now, id, c))
      && (a == Err(ThirdConfirmation) <==> Checkpoints(w.gate, now, id, c))
      && (a.Ok? ==> id in w'.gate.requests && w'.gate.requests[id].commit == Some(a.value))
      && Confirms(w.gate, w'.gate, now, id, c)
  {
    hide Inv, GateOK, Moves, AfterConfirm, ConfirmAnswer, Persist, ValidOpaque, Completes, Checkpoints, Confirms;
    F.InvGate(w, clock);
    ConfirmMoves(w.gate, now, id, c, clock);
    F.ConfirmLogsActor(w.gate, now, id, c);
    F.SameActors([ConfirmEvent(w.gate, now, id, c)], c.actor);
    RecordAt(w.gate, id, clock);
    ConfirmedGate(w.gate, now, id, c);
    ConfirmedAnswers(w.gate, now, id, c);
    var g := AfterConfirm(w.gate, now, id, c);
    WrittenMove(w, g, id, [ConfirmEvent(w.gate, now, id, c)], false, clock, clock);
    P.NoLedger(w, g, id);
    ConfirmsDespiteCounters(w.gate, g, Confirm(w, now, id, c, false).0.gate, now, id, c);
    CommitAnswered(w.gate, now, id, c);
  }

  lemma CommitAnswered(g: Gate, now: Time, id: string, c: Confirmation)
    requires id in g.requests
    ensures ConfirmAnswer(g, now, id, c).Ok? ==>
      id in AfterConfirm(g, now, id, c).requests
      && AfterConfirm(g, now, id, c).requests[id].commit == Some(ConfirmAnswer(g, now, id, c).value)
  {
    hide Decide, CommitFor;
  }

  /** An unknown request cannot be confirmed, and nothing of the gate but a counter is touched. */
  lemma ConfirmUnknown(w: World, now: Time, id: string, c: Confirmation, refuse: bool, clock: Time)
    requires Inv(w, clock) && id !in w.gate.requests
    ensures var (w', a) := Confirm(w, now, id, c, refuse);
      a == Err(NotFound) && w'.ledger == w.ledger && w'.gate == w.gate.(durable := w'.gate.durable)
  {
    hide Inv, Persist;
    TouchedCounter(w, id, refuse, clock);
    PersistKeepsGate(w, w.gate, id, refuse);
  }

  // ----- Revoke and ConsumeAuthorization

  lemma WithdrawnGate(g: Gate, now: Time, id: string, actor: string, confirmationID: string, reason: string)
    requires id in g.requests && g.requests[id].id == id && g.requests[id].request.id == id
    ensures var g' := Withdraw(g, now, id, actor, confirmationID, reason); var r := g.requests[id];
      && |g'.audit| == |g.audit| + 1
      && Becomes(g, g', id, r.(status := Revoked, commit := None), [g'.audit[|g.audit|]])
      && g'.usedIDs == g.usedIDs && g'.owners == g.owners
      && Tells(g'.audit[|g.audit|], RevokedEvent, now, r, actor, confirmationID)
      && g'.audit[|g.audit|].reason == Plain(reason)
  {
  }

  /** What a withdrawal leaves. */
  ghost predicate Withdraws(g: Gate, g': Gate, now: Time, id: string, actor: string, confirmationID: string, reason: string)
    requires id in g.requests
  {
    var r := g.requests[id];
    && |g'.audit| == |g.audit| + 1
    && Becomes(g, g', id, r.(status := Revoked, commit := None), [g'.audit[|g.audit|]])
    && g'.usedIDs == g.usedIDs && g'.owners == g.owners
    && Tells(g'.audit[|g.audit|], RevokedEvent, now, r, actor, confirmationID) && g'.audit[|g.audit|].reason == Plain(reason)
  }

  lemma WillingWithdraw(w: World, now: Time, id: string, actor: string, confirmationID: string, reason: string, clock: Time)
    requires Inv(w, clock) && 0 < now && id in w.gate.requests && ValidOpaque(actor)
    ensures var p := Persist(w, Withdraw(w.gate, now, id, actor, confirmationID, reason), id, false);
      p.Ok? && Withdraws(w.gate, p.value.gate, now, id, actor, confirmationID, reason)
  {
    hide Inv, GateOK, Moves, Persist, ValidOpaque, Withdraw, Tells;
    F.InvGate(w, clock);
    RecordAt(w.gate, id, clock);
    WithdrawMoves(w.gate, now, id, actor, confirmationID, reason, clock);
    P.WithdrawActor(w.gate, now, id, actor, confirmationID, reason);
    var g := Withdraw(w.gate, now, id, actor, confirmationID, reason);
    WrittenMove(w, g, id, [g.audit[|w.gate.audit|]], false, clock, clock);
    F.SameActors([g.audit[|w.gate.audit|]], actor);
    P.NoLedger(w, g, id);
    WithdrawnGate(w.gate, now, id, actor, confirmationID, reason);
  }

  /** In every reachable world with a willing ledger, a revocation succeeds exactly when the request is known
      and not yet revoked, the actor is named well and the reason is not blank and well formed; then the
      record is revoked without a commit and the log says by whom and why. */
  lemma RevokeIsExact(w: World, now: Time, id: string, actor: string, reason: string, clock: Time)
    requires Inv(w, clock) && 0 < now
    ensures var (w', a) := Revoke(w, now, id, actor, reason, false);
      && (a.Pass? <==>
            id in w.gate.requests && w.gate.requests[id].status != Revoked && ValidIdentifier(actor)
            && !AllSpace(reason) && ValidReason(reason))
      && (a.Pass? ==> Withdraws(w.gate, w'.gate, now, id, actor, "", reason))
      && (!a.Pass? ==> w' == w)
  {
    RevokeChecksIff(w.gate, id, actor, reason);
    hide Inv, RevokeChecks, Withdraw, Persist, Withdraws, AllSpace, ValidReason, ValidOpaque;
    if RevokeChecks(w.gate, id, actor, reason).Pass? { WillingWithdraw(w, now, id, actor, "", reason, clock); }
  }

  /** The actor of an approved record's confirmation is well formed. */
  lemma ApprovedRecordIs(w: World, id: string, clock: Time)
    requires Inv(w, clock) && id in w.gate.requests && w.gate.requests[id].status == Approved
    ensures var r := w.gate.requests[id]; ProperRecord(r) && ValidOpaque(r.confirmation.actor) && r.commit.Some?
  {
    hide Inv, ProperRecord;
    F.InvGate(w, clock);
    RecordAt(w.gate, id, clock);
    GoodIsProper(w.gate.requests[id], w.gate.policyEpoch, clock);
    ConfirmedActor(w.gate.requests[id]);
  }

  lemma GoodIsProper(r: Record, epoch: nat, clock: Time)
    requires GoodRecord(r, epoch, clock)
    ensures ProperRecord(r) && (r.status == Approved ==> r.confirmation.confirmationID != "")
  {
    hide ValidateRecord, ProperRecord, SoundApproval, SoundConfirmation;
    RecordIff(r);
  }

  lemma ConfirmedActor(r: Record)
    requires ProperRecord(r) && r.status == Approved && r.confirmation.confirmationID != ""
    ensures ValidOpaque(r.confirmation.actor) && r.commit.Some?
  {
    hide ProperRequest, ProperCommit, ExpectedPhrase, ValidOpaque, Sensitive;
  }

  /** In every reachable world with a willing ledger, an authorization is consumed exactly when its request is
      approved, for this very scope and intent, at the gate's epoch and before its time; then it is spent, and
      the log says by whose confirmation. */
  lemma ConsumeIsExact(w: World, now: Time, id: string, scope: string, intent: Token, clock: Time)
    requires Inv(w, clock) && 0 < now
    ensures var (w', a) := Consume(w, now, id, scope, intent, false);
      && (a.Pass? <==>
            id in w.gate.requests && w.gate.requests[id].status == Approved
            && w.gate.requests[id].request.scope == scope && w.gate.requests[id].request.intentDigest == intent
            && w.gate.requests[id].request.policyEpoch == w.gate.policyEpoch && now < w.gate.requests[id].expiresAt)
      && (a.Pass? ==> var c := w.gate.requests[id].confirmation;
            Withdraws(w.gate, w'.gate, now, id, c.actor, c.confirmationID, "authorization consumed"))
      && (!a.Pass? ==> w' == w)
  {
    hide Inv, ConsumeChecks, Withdraw, Persist, Withdraws, ProperRecord, ValidOpaque;
    ConsumeChecksIff(w.gate, now, id, scope, intent);
    if id in w.gate.requests && w.gate.requests[id].status == Approved {
      ApprovedRecordIs(w, id, clock);
      var c := w.gate.requests[id].confirmation;
      WillingWithdraw(w, now, id, c.actor, c.confirmationID, CONSUMED_REASON, clock);
    }
  }

  // ----- back to the submission

  lemma NewBySubmit(w: World, op: Op, id: string)
    requires id !in w.gate.requests && id in Step(w, op).0.gate.requests
    ensures op.SubmitOp? && op.request.id == id && Step(w, op).1.record.Ok?
    ensures NormalizeLanguage(op.request.language).Some?
    ensures Step(w, op).0.gate.requests[id].request == Kept(op.request)
  {
    hide Persist, Decide, NormalizeRequest, ValidateRequest, NewRecord, MakeEvent, Kept, Admissible, ConsumeChecks, RevokeChecks;
    match op
    case SubmitOp(now, raw, refuse) =>
      AdmissionIff(w.gate, raw);
      AdmissibleLanguage(w.gate, raw);
      if AdmitRequest(w.gate, raw).Ok? {
        NewRecordIs(now, Kept(raw));
        hide AdmitRequest, Tells;
        var g := AfterSubmit(w.gate, now, Kept(raw));
        if Persist(w, g, raw.id, refuse).Ok? { PersistKeepsGate(w, g, raw.id, refuse); }
      }
    case ConfirmOp(now, x, c, refuse) =>
      var g := if x in w.gate.requests then AfterConfirm(w.gate, now, x, c) else w.gate;
      if Persist(w, g, x, refuse).Ok? { PersistKeepsGate(w, g, x, refuse); }
    case RevokeOp(now, x, actor, reason, refuse) =>
      if RevokeChecks(w.gate, x, actor, reason).Pass? {
        PassedRevoke(w.gate, x, actor, reason);
        var g := Withdraw(w.gate, now, x, actor, "", reason);
        if Persist(w, g, x, refuse).Ok? { PersistKeepsGate(w, g, x, refuse); }
      }
    case ConsumeOp(now, x, scope, intent, refuse) =>
      if ConsumeChecks(w.gate, now, x, scope, intent).Pass? {
        PassedConsume(w.gate, now, x, scope, intent);
        var c := w.gate.requests[x].confirmation;
        var g := Withdraw(w.gate, now, x, c.actor, c.confirmationID, CONSUMED_REASON);
        if Persist(w, g, x, refuse).Ok? { PersistKeepsGate(w, g, x, refuse); }
      }
  }

  lemma AdmissibleLanguage(g: Gate, raw: Request)
    ensures Admissible(g, raw) ==> NormalizeLanguage(raw.language).Some?
  {
    hide NormalizeLanguage, ValidOpaque, ValidDigest, SensitiveScope;
  }

  /** Every request the gate knows was submitted, and is kept as it was then. */
  lemma {:induction false} RequestWasSubmitted(epoch: nat, bound: bool, ops: seq<Op>, n: nat, id: string) returns (i: nat)
    requires n <= |ops| && id in After(Start(epoch, bound), ops[..n]).gate.requests
    ensures i < n && ops[i].SubmitOp? && ops[i].request.id == id && AnswerAt(Start(epoch, bound), ops, i).record.Ok?
    ensures NormalizeLanguage(ops[i].request.language).Some?
    ensures After(Start(epoch, bound), ops[..n]).gate.requests[id].request == Kept(ops[i].request)
  {
    hide Step, Grows, Kept;
    var w := Start(epoch, bound);
    i := 0;
    if n > 0 {
      AfterStep(w, ops, n - 1);
      if id in After(w, ops[..n - 1]).gate.requests {
        i := RequestWasSubmitted(epoch, bound, ops, n - 1, id);
        StepIsMonotone(After(w, ops[..n - 1]), ops[n - 1]);
        GrowsKeepsTheRequest(After(w, ops[..n - 1]).gate, After(w, ops[..n]).gate, id);
      } else {
        NewBySubmit(After(w, ops[..n - 1]), ops[n - 1], id);
        i := n - 1;
      }
    }
  }

  lemma GrowsKeepsTheRequest(g: Gate, g': Gate, id: string)
    requires Grows(g, g') && id in g.requests
    ensures id in g'.requests && g'.requests[id].request == g.requests[id].request
  {
  }

  /** In every run from a fresh gate, a consumption that succeeds names the scope its request was submitted
      with, and the intent that was given or derived then. */
  lemma ConsumedAsSubmitted(epoch: nat, bound: bool, ops: seq<Op>, j: nat) returns (i: nat)
    requires j < |ops| && ops[j].ConsumeOp? && AnswerAt(Start(epoch, bound), ops, j) == DoneAnswer(Pass)
    ensures i < j && ops[i].SubmitOp? && ops[i].request.id == ops[j].id && AnswerAt(Start(epoch, bound), ops, i).record.Ok?
    ensures ops[j].scope == ops[i].request.scope
    ensures NormalizeLanguage(ops[i].request.language).Some? && ops[j].intent == Kept(ops[i].request).intentDigest
    ensures !EmptyToken(ops[i].request.intentDigest) ==> ops[j].intent == ops[i].request.intentDigest
  {
    hide After, Kept, ConsumeChecks;
    var w := After(Start(epoch, bound), ops[..j]);
    ConsumedChecks(w, ops[j]);
    hide Step;
    i := RequestWasSubmitted(epoch, bound, ops, j, ops[j].id);
    KeptScope(ops[i].request);
  }

  lemma ConsumedChecks(w: World, op: Op)
    requires op.ConsumeOp? && Step(w, op).1 == DoneAnswer(Pass)
    ensures op.id in w.gate.requests
    ensures w.gate.requests[op.id].request.scope == op.scope && w.gate.requests[op.id].request.intentDigest == op.intent
  {
    ConsumeChecksIff(w.gate, op.now, op.id, op.scope, op.intent);
    hide ConsumeChecks, Persist, Withdraw, ProperRecord;
  }

  lemma KeptScope(raw: Request)
    requires NormalizeLanguage(raw.language).Some?
    ensures Kept(raw).scope == raw.scope && (!EmptyToken(raw.intentDigest) ==> Kept(raw).intentDigest == raw.intentDigest)
  {
    hide NormalizeLanguage, SensitiveScope, Shape;
  }

  // ----- dangerous requests

  /** The kinds of request that may never pass with a single confirmation. */
  ghost predicate Dangerous(r: Request) {
    || r.untrusted || r.test || r.tokenOperation || r.kmsOperation || r.clusterOperation || FromOthers(r)
  }

  /** The kinds of request that nobody may confirm for themselves. */
  ghost predicate FromOthers(r: Request) {
    || r.risk == High || r.risk == Emergency
    || "crp:" <= r.scope || "cluster:" <= r.scope || "kms:" <= r.scope || "token:" <= r.scope
  }

  lemma DangerousIsSensitive(r: Request)
    requires ValidateRequest(r).Pass?
    ensures Dangerous(r) ==> Sensitive(r) && !AutoApproved(r)
    ensures FromOthers(r) ==> HighRisk(r)
  {
    hide NormalizeLanguage, ValidOpaque, ValidDigest;
  }

  /** The log has a checkpoint of a confirmation, and later its authorization. */
  ghost predicate ClickedTwice(audit: seq<AuditEvent>, id: string, k: Commit) {
    exists i: nat, j: nat :: i < j < |audit|
      && audit[i].kind == Checkpoint && audit[i].requestID == id && audit[i].confirmationID == k.confirmationID
      && audit[j].kind == Authorized && audit[j].requestID == id && audit[j].confirmationID == k.confirmationID
  }

  /** However a run goes, an approved dangerous request was confirmed by a third click, ten seconds after the
      warning, after a checkpoint in the log; of the kinds nobody may confirm for themselves, by another
      subject in another session. */
  lemma DangerNeedsThirdClick(epoch: nat, bound: bool, ops: seq<Op>, id: string)
    requires Timed(0, ops) && id in After(Start(epoch, bound), ops).gate.requests
    requires var r := After(Start(epoch, bound), ops).gate.requests[id]; r.status == Approved && Dangerous(r.request)
    ensures var g := After(Start(epoch, bound), ops).gate; var r := g.requests[id]; var c := r.confirmation;
      && r.commit.Some? && c.thirdConfirmation && c.step == 3 && c.warningReadAt + WARNING_DELAY <= r.commit.value.issuedAt
      && ClickedTwice(g.audit, r.id, r.commit.value)
      && (FromOthers(r.request) ==>
            r.commit.value.actor != r.request.actor && r.commit.value.sessionID != r.request.sessionID)
  {
    hide After, Dangerous, FromOthers, Trail, ClickedTwice, GoodRecord;
    StartIsGood(epoch, bound);
    RunKeepsInv(Start(epoch, bound), ops, 0);
    var w, clock := After(Start(epoch, bound), ops), ClockAfter(0, ops);
    F.InvGate(w, clock);
    RecordAt(w.gate, id, clock);
    hide Start, Inv;
    ApprovedDanger(w.gate.audit, w.gate.requests[id], w.gate.policyEpoch, clock);
  }

  lemma ApprovedDanger(audit: seq<AuditEvent>, r: Record, epoch: nat, clock: Time)
    requires GoodRecord(r, epoch, clock) && Trail(audit, r) && r.status == Approved && Dangerous(r.request)
    ensures var c := r.confirmation;
      && r.commit.Some? && c.thirdConfirmation && c.step == 3 && c.warningReadAt + WARNING_DELAY <= r.commit.value.issuedAt
      && ClickedTwice(audit, r.id, r.commit.value)
      && (FromOthers(r.request) ==>
            r.commit.value.actor != r.request.actor && r.commit.value.sessionID != r.request.sessionID)
  {
    RecordIff(r);
    RequestIff(r.request);
    hide Dangerous, FromOthers, Trail, ClickedTwice, ValidateRecord, ProperConfirmation, SoundConfirmation, AutoApproved;
    IDsMatch(r);
    hide ProperRequest, ValidateRequest, ProperCommit, Sensitive, HighRisk;
    ProperHasProperRequest(r);
    DangerousIsSensitive(r.request);
    hide ProperRecord;
    TrailClicks(audit, r);
  }

  lemma ProperHasProperRequest(r: Record)
    requires ProperRecord(r)
    ensures ValidateRequest(r.request).Pass?
  {
    RequestIff(r.request);
    hide ProperRequest, ProperCommit, ProperConfirmation;
  }

  lemma IDsMatch(r: Record)
    requires ProperRecord(r) && r.status == Approved
    ensures r.commit.Some? && r.request.id == r.id
    ensures r.confirmation.confirmationID != "" ==> r.confirmation.confirmationID == r.commit.value.confirmationID
  {
    hide ProperRequest, ProperCommit, NormalizeLanguage, ValidOpaque, ExpectedPhrase, Sensitive;
  }

  lemma TrailClicks(audit: seq<AuditEvent>, r: Record)
    requires Trail(audit, r) && r.commit.Some? && Sensitive(r.request) && r.request.id == r.id
    requires r.confirmation.confirmationID == r.commit.value.confirmationID
    ensures ClickedTwice(audit, r.id, r.commit.value)
  {
    hide Sensitive;
    var j: nat :| j < |audit| && IsAuthorizationFor(audit[j], r) && CheckpointBefore(audit, j, r);
    var i :| 0 <= i < j && IsCheckpointFor(audit[i], r);
  }
}
