/** The gate also does what it is for: a proper two-click confirmation is authorized and can be consumed. */
module GateProgress {
  import opened Wrappers
  import opened ApprovalTypes
  import opened ApprovalRules
  import opened ApprovalGate
  import opened GateInvariant
  import opened GateSafety
  import opened GateMoves
  import T = GateTheorems

  /** A confirmation of a waiting high-risk request that says everything it must, by somebody who may. */
  ghost predicate Proper(g: Gate, id: string, c: Confirmation) {
    id in g.requests &&
    var r := g.requests[id]; var req := r.request;
    && r.status == Pending && req.risk == High && req.policyEpoch == g.policyEpoch == c.policyEpoch
    && c.scope == req.scope && ValidIdentifier(c.actor) && c.actor != req.actor
    && ValidIdentifier(c.sessionID) && c.sessionID != req.sessionID && c.local
    && ValidIdentifier(c.confirmationID) && c.confirmationID !in g.usedIDs
    && (c.confirmationID in g.owners ==> g.owners[c.confirmationID] == id)
    && c.language == req.language != "" && NormalizeLanguage(c.language) == Some(req.language)
    && ExpectedPhrase(req.language) == Some(c.phrase)
    && c.intentDigest == req.intentDigest && c.workflowDigest == req.workflowDigest
    && c.nonce == req.nonce && !EmptyToken(c.nonce) && c.ttl == 0 && c.warningReadAt != 0
    && (c.passwordConfirmed || c.totpConfirmed) && c.secondConfirmation
  }

  ghost predicate InTime(r: Record, c: Confirmation, now: Time) {
    r.submittedAt <= now < r.expiresAt && c.warningReadAt + WARNING_DELAY <= now
  }

  lemma ProperPasses(g: Gate, id: string, c: Confirmation, now: Time)
    requires Proper(g, id, c) && InTime(g.requests[id], c, now)
    ensures ConfirmationChecks(g, now, id, c).Pass?
  {
    hide NormalizeLanguage, ExpectedPhrase, ValidOpaque, BreakGlassChecks;
  }

  /** What the first click records. */
  ghost function Noted(req: Request, c: Confirmation): Confirmation { c.(language := req.language, step := 2, ttl := req.ttl) }

  lemma FirstClickChecks(g: Gate, id: string, c: Confirmation, now: Time)
    requires Proper(g, id, c) && InTime(g.requests[id], c, now)
    requires g.requests[id].confirmation.confirmationID == "" && !c.thirdConfirmation
    ensures Decide(g, now, id, c) == Check(Noted(g.requests[id].request, c), true)
  {
    ProperPasses(g, id, c, now);
    hide ConfirmationChecks, NormalizeLanguage, ExpectedPhrase, ValidOpaque, SameCheckpoint;
  }

  lemma SecondClickAuthorizes(g: Gate, id: string, c: Confirmation, now: Time)
    requires Proper(g, id, c) && InTime(g.requests[id], c, now) && c.thirdConfirmation
    requires g.requests[id].confirmation == Noted(g.requests[id].request, c.(thirdConfirmation := false))
    ensures Decide(g, now, id, c).Authorize?
  {
    ProperPasses(g, id, c, now);
    hide ConfirmationChecks, NormalizeLanguage, ExpectedPhrase, ValidOpaque;
  }

  /** A willing ledger takes the write, and the gate is what the decision made it. */
  lemma WillingConfirm(w: World, now: Time, id: string, c: Confirmation, clock: Time)
    requires Inv(w, clock) && 0 < now && id in w.gate.requests && w.gate.requests[id].submittedAt <= now
    requires ValidOpaque(c.actor) && (Decide(w.gate, now, id, c).Check? || Decide(w.gate, now, id, c).Authorize?)
    ensures var (w', answer) := Confirm(w, now, id, c, false);
      && answer == ConfirmAnswer(w.gate, now, id, c) && Inv(w', clock)
      && w'.gate == AfterConfirm(w.gate, now, id, c).(durable := w'.gate.durable)
  {
    hide Moves, Mirrors, AfterConfirm, ConfirmAnswer, GateOK, Persist, Decide, ValidOpaque;
    ConfirmMoves(w.gate, now, id, c, clock);
    LoggedActor(w.gate, now, id, c);
    WrittenMove(w, AfterConfirm(w.gate, now, id, c), id, [ConfirmEvent(w.gate, now, id, c)], false, clock, clock);
    NoLedger(w, AfterConfirm(w.gate, now, id, c), id);
  }

  lemma NoLedger(w: World, g: Gate, id: string)
    requires |w.gate.audit| <= |g.audit|
    ensures w.ledger.None? ==> Persist(w, g, id, false).Ok?
  {
  }

  lemma LoggedActor(g: Gate, now: Time, id: string, c: Confirmation)
    requires id in g.requests && (Decide(g, now, id, c).Check? || Decide(g, now, id, c).Authorize?)
    ensures ConfirmEvent(g, now, id, c).actor == c.actor
  {
    KeptFields(g, now, id, c);
    hide Decide;
  }

  lemma KeptFields(g: Gate, now: Time, id: string, c: Confirmation)
    requires id in g.requests
    ensures var d := Decide(g, now, id, c); d.Check? || d.Authorize? ==>
      d.c.actor == c.actor && d.c.confirmationID == c.confirmationID
  {
    hide ConfirmationChecks, SameCheckpoint;
  }

  /** The first click reserves the ID and leaves the second click proper. */
  lemma FirstClick(w: World, id: string, c: Confirmation, now: Time, clock: Time)
    requires Inv(w, clock) && 0 < now && Proper(w.gate, id, c) && InTime(w.gate.requests[id], c, now)
    requires w.gate.requests[id].confirmation.confirmationID == "" && !c.thirdConfirmation
    ensures var (w', answer) := Confirm(w, now, id, c, false); var r := w.gate.requests[id];
      && answer == Err(ThirdConfirmation) && Inv(w', clock) && Proper(w'.gate, id, c.(thirdConfirmation := true))
      && w'.gate.requests[id] == r.(confirmation := Noted(r.request, c)) && w'.gate.policyEpoch == w.gate.policyEpoch
  {
    FirstClickChecks(w.gate, id, c, now);
    hide Inv, Decide, NormalizeLanguage, ExpectedPhrase, ValidOpaque, InTime, Confirm;
    WillingConfirm(w, now, id, c, clock);
    FirstClickProper(w.gate, id, c, now);
  }

  lemma FirstClickProper(g: Gate, id: string, c: Confirmation, now: Time)
    requires Proper(g, id, c) && Decide(g, now, id, c) == Check(Noted(g.requests[id].request, c), true)
    ensures var g' := AfterConfirm(g, now, id, c); var r := g.requests[id];
      && ConfirmAnswer(g, now, id, c) == Err(ThirdConfirmation) && g'.policyEpoch == g.policyEpoch
      && Proper(g', id, c.(thirdConfirmation := true)) && g'.requests[id] == r.(confirmation := Noted(r.request, c))
      && forall d :: Proper(g'.(durable := d), id, c.(thirdConfirmation := true))
  {
    hide Decide, NormalizeLanguage, ExpectedPhrase, ValidOpaque, MakeEvent;
  }

  lemma SecondClick(w: World, id: string, c: Confirmation, now: Time, clock: Time)
    requires Inv(w, clock) && 0 < now && Proper(w.gate, id, c) && InTime(w.gate.requests[id], c, now) && c.thirdConfirmation
    requires w.gate.requests[id].confirmation == Noted(w.gate.requests[id].request, c.(thirdConfirmation := false))
    ensures var (w', answer) := Confirm(w, now, id, c, false);
      && answer.Ok? && Inv(w', clock) && id in w'.gate.requests && w'.gate.policyEpoch == w.gate.policyEpoch
      && w'.gate.requests[id].status == Approved && w'.gate.requests[id].commit == Some(answer.value)
      && w'.gate.requests[id].request == w.gate.requests[id].request
      && w'.gate.requests[id].expiresAt == w.gate.requests[id].expiresAt
      && w'.gate.requests[id].confirmation.actor == c.actor && w'.gate.requests[id].id == w.gate.requests[id].id
      && answer.value == CommitFor(w.gate.requests[id], now, c)
  {
    SecondClickAuthorizes(w.gate, id, c, now);
    hide Inv, Decide, NormalizeLanguage, ExpectedPhrase, ValidOpaque, InTime, Confirm;
    WillingConfirm(w, now, id, c, clock);
    AuthorizedCommit(w.gate, now, id, c);
    KeptFields(w.gate, now, id, c);
  }

  lemma AuthorizedCommit(g: Gate, now: Time, id: string, c: Confirmation)
    requires id in g.requests && Decide(g, now, id, c).Authorize? && c.language == g.requests[id].request.language
    ensures CommitFor(g.requests[id], now, Decide(g, now, id, c).c) == CommitFor(g.requests[id], now, c)
  {
    hide ConfirmationChecks, SameCheckpoint;
  }

  lemma WillingConsume(w: World, id: string, now: Time, clock: Time)
    requires Inv(w, clock) && 0 < now && id in w.gate.requests && w.gate.requests[id].status == Approved
    requires w.gate.requests[id].request.policyEpoch == w.gate.policyEpoch && now < w.gate.requests[id].expiresAt
    requires ValidOpaque(w.gate.requests[id].confirmation.actor)
    ensures var req := w.gate.requests[id].request; Consume(w, now, id, req.scope, req.intentDigest, false).1.Pass?
  {
    hide Moves, Mirrors, GateOK, Persist, Withdraw, ValidateRecord, GoodRecord, ValidOpaque;
    RecordAt(w.gate, id, clock);
    ApprovedPasses(w.gate.requests[id], w.gate.policyEpoch, clock);
    var c := w.gate.requests[id].confirmation;
    WithdrawMoves(w.gate, now, id, c.actor, c.confirmationID, CONSUMED_REASON, clock);
    WithdrawActor(w.gate, now, id, c.actor, c.confirmationID, CONSUMED_REASON);
    var g' := Withdraw(w.gate, now, id, c.actor, c.confirmationID, CONSUMED_REASON);
    WrittenMove(w, g', id, [g'.audit[|w.gate.audit|]], false, clock, clock);
    NoLedger(w, g', id);
  }

  lemma WithdrawActor(g: Gate, now: Time, id: string, actor: string, confirmationID: string, reason: string)
    requires id in g.requests
    ensures Withdraw(g, now, id, actor, confirmationID, reason).audit[|g.audit|].actor == actor
  {
  }

  lemma ApprovedPasses(r: Record, epoch: nat, clock: Time)
    requires GoodRecord(r, epoch, clock) && r.status == Approved
    ensures ValidateRecord(r).Pass? && r.commit.Some?
  {
    hide ValidateRecord, SoundApproval, SoundConfirmation;
    T.ApprovedIffCommit(r);
  }

  /** With a willing ledger, a proper first click asks for the third confirmation, the same confirmation
      repeated with it is authorized with a commit for exactly this request, and the authorization can be
      consumed, all of it until the request expires. */
  lemma TwoClicksAuthorize(w: World, id: string, c: Confirmation, now: Time, later: Time, last: Time, clock: Time)
    requires Inv(w, clock) && 0 < now <= later <= last && Proper(w.gate, id, c) && !c.thirdConfirmation
    requires w.gate.requests[id].confirmation.confirmationID == ""
    requires InTime(w.gate.requests[id], c, now) && last < w.gate.requests[id].expiresAt
    ensures var (w1, first) := Confirm(w, now, id, c, false);
      var (w2, second) := Confirm(w1, later, id, c.(thirdConfirmation := true), false);
      && first == Err(ThirdConfirmation) && second.Ok? && id in w2.gate.requests
      && w2.gate.requests[id].status == Approved && w2.gate.requests[id].commit == Some(second.value)
      && second.value.requestID == w.gate.requests[id].id && second.value.actor == c.actor
      && second.value.expiresAt == w.gate.requests[id].expiresAt && second.value.issuedAt == later
      && Consume(w2, last, id, c.scope, c.intentDigest, false).1.Pass?
  {
    ProperActor(w.gate, id, c);
    hide Inv, Proper, Confirm, Consume, ValidOpaque;
    FirstClick(w, id, c, now, clock);
    var w1 := Confirm(w, now, id, c, false).0;
    var again := c.(thirdConfirmation := true);
    assert again.(thirdConfirmation := false) == c;
    SecondClick(w1, id, again, later, clock);
    WillingConsume(Confirm(w1, later, id, again, false).0, id, last, clock);
  }

  lemma ProperActor(g: Gate, id: string, c: Confirmation)
    requires Proper(g, id, c)
    ensures ValidOpaque(c.actor) && g.requests[id].request.policyEpoch == g.policyEpoch
    ensures c.scope == g.requests[id].request.scope && c.intentDigest == g.requests[id].request.intentDigest
  {
    hide NormalizeLanguage, ExpectedPhrase, ValidOpaque;
  }
}
