/** Exactly when a ledger write fails, and that a call whose write failed has changed nothing. */
module GateFailures {
  import opened Wrappers
  import opened ApprovalTypes
  import opened ApprovalRules
  import opened ApprovalGate
  import opened GateInvariant
  import opened GateWrites
  import opened GateSafety
  import opened GateMoves
  import opened GateTheorems
  import P = GateProgress

  function AnswerError(a: Answer): Option<Error> {
    match a
    case SubmitAnswer(Err(e)) => Some(e)
    case ConfirmedAnswer(Err(e)) => Some(e)
    case DoneAnswer(Fail(e)) => Some(e)
    case _ => None
  }

  /** The call was answered with an error of the ledger. */
  ghost predicate WriteFails(a: Answer) { AnswerError(a).Some? && LedgerError(AnswerError(a).value) }

  /** The call gets as far as writing. */
  ghost predicate Writes(g: Gate, op: Op) {
    match op
    case SubmitOp(_, raw, _) => AdmitRequest(g, raw).Ok?
    case ConfirmOp(_, id, _, _) => id in g.requests
    case RevokeOp(_, id, actor, reason, _) => RevokeChecks(g, id, actor, reason).Pass?
    case ConsumeOp(now, id, scope, intent, _) => ConsumeChecks(g, now, id, scope, intent).Pass?
  }

  // ----- the gate's own errors are none of the ledger's

  lemma AdmissionErrors(g: Gate, raw: Request)
    ensures AdmitRequest(g, raw).Err? ==> !LedgerError(AdmitRequest(g, raw).error)
  {
    hide NormalizeLanguage, WellFormedNames, ValidOpaque, SensitiveScope;
  }

  lemma DecisionErrors(g: Gate, now: Time, id: string, c: Confirmation)
    requires id in g.requests
    ensures ConfirmAnswer(g, now, id, c).Err? ==> !LedgerError(ConfirmAnswer(g, now, id, c).error)
  {
    hide ConfirmationChecks, Sensitive, CommitFor, SameCheckpoint;
    CheckErrors(g, now, id, c);
    CheckpointErrors(g.requests[id].confirmation, c.(language := g.requests[id].request.language));
  }

  lemma CheckpointErrors(previous: Confirmation, current: Confirmation)
    ensures SameCheckpoint(previous, current).Fail? ==> !LedgerError(SameCheckpoint(previous, current).error)
  {
  }

  lemma CheckErrors(g: Gate, now: Time, id: string, c: Confirmation)
    requires id in g.requests
    ensures ConfirmationChecks(g, now, id, c).Fail? ==> !LedgerError(ConfirmationChecks(g, now, id, c).error)
  {
    hide NormalizeLanguage, ExpectedPhrase, ValidOpaque, AllSpace, ValidReason;
  }

  lemma RevokeErrors(g: Gate, id: string, actor: string, reason: string)
    ensures RevokeChecks(g, id, actor, reason).Fail? ==> !LedgerError(RevokeChecks(g, id, actor, reason).error)
  {
    hide ValidOpaque, AllSpace, ValidReason;
  }

  lemma ConsumeErrors(g: Gate, now: Time, id: string, scope: string, intent: Token)
    ensures ConsumeChecks(g, now, id, scope, intent).Fail? ==> !LedgerError(ConsumeChecks(g, now, id, scope, intent).error)
  {
    hide ValidateRecord;
    if id in g.requests { RecordErrors(g.requests[id]); }
  }

  lemma RecordErrors(r: Record)
    ensures ValidateRecord(r).Fail? ==> !LedgerError(ValidateRecord(r).error)
  {
    hide ValidOpaque, ExpectedPhrase, NormalizeLanguage, ConfirmationMatches, CommitMatches, InteractiveCommit, Sensitive,
      WellFormedNames, SensitiveScope;
  }

  // ----- who the logged events name

  lemma AdmittedActor(g: Gate, raw: Request)
    requires AdmitRequest(g, raw).Ok?
    ensures ValidOpaque(AdmitRequest(g, raw).value.actor) && AdmitRequest(g, raw).value.actor == raw.actor
  {
    hide NormalizeRequest, NormalizeLanguage;
  }

  lemma SubmitLogsActor(g: Gate, now: Time, req: Request)
    requires ValidateRequest(req).Pass?
    ensures forall i | 0 <= i < |SubmitEvents(g, now, req)| :: SubmitEvents(g, now, req)[i].actor == req.actor
  {
    hide ValidateRequest;
  }

  lemma ConfirmLogsActor(g: Gate, now: Time, id: string, c: Confirmation)
    requires id in g.requests
    ensures ConfirmEvent(g, now, id, c).actor == c.actor
  {
    P.KeptFields(g, now, id, c);
    hide Decide;
  }

  /** The actor the events of a call name. */
  ghost function LoggedActor(g: Gate, op: Op): string
    requires Writes(g, op)
  {
    match op
    case SubmitOp(_, raw, _) => raw.actor
    case ConfirmOp(_, _, c, _) => c.actor
    case RevokeOp(_, _, actor, _, _) => actor
    case ConsumeOp(_, id, _, _, _) => g.requests[id].confirmation.actor
  }

  // ----- call by call

  /** What a call that writes answers, by whether the store is willing and the actor is well formed. */
  ghost predicate Exact(w: World, op: Op) {
    var (w', a) := Step(w, op);
    && (WriteFails(a) <==> Writes(w.gate, op) && (op.refuse || !ValidOpaque(LoggedActor(w.gate, op))))
    && (WriteFails(a) ==> w' == w)
  }

  lemma SubmitIsExact(w: World, op: Op, clock: Time)
    requires Inv(w, clock) && w.ledger.Some? && op.SubmitOp? && 0 < op.now <= clock
    ensures Exact(w, op)
  {
    hide Inv, Moves, ValidateRequest, NormalizeRequest, AfterSubmit, NewRecord, Persist, AdmitRequest, ValidOpaque, Mirrors;
    AdmissionErrors(w.gate, op.request);
    var admitted := AdmitRequest(w.gate, op.request);
    if admitted.Ok? {
      var req := admitted.value;
      AdmittedActor(w.gate, op.request);
      InvGate(w, clock);
      SubmitMoves(w.gate, op.now, req, clock);
      SubmitLogsActor(w.gate, op.now, req);
      var g, added := AfterSubmit(w.gate, op.now, req), SubmitEvents(w.gate, op.now, req);
      WrittenMove(w, g, req.id, added, op.refuse, clock, clock);
      PersistErrors(w, g, req.id, op.refuse);
      SameActors(added, req.actor);
      MoveLogs(w.gate, g, req.id, added, clock);
    }
  }

  lemma InvGate(w: World, clock: Time)
    requires Inv(w, clock)
    ensures GateOK(w.gate, clock)
  {
    hide GateOK, Mirrors;
  }

  lemma MoveLogs(g: Gate, g': Gate, id: string, added: seq<AuditEvent>, clock: Time)
    requires Moves(g, g', id, added, clock)
    ensures added != []
  {
    hide GoodRecord, Trail, NamedID, Issued, SetsFollow;
  }

  lemma SameActors(events: seq<AuditEvent>, actor: string)
    requires forall i | 0 <= i < |events| :: events[i].actor == actor
    ensures events != [] ==> (AllActorsValid(events) <==> ValidOpaque(actor))
  {
    hide ValidOpaque;
    if events != [] { assert events[0].actor == actor; }
  }

  lemma ConfirmIsExact(w: World, op: Op, clock: Time)
    requires Inv(w, clock) && w.ledger.Some? && op.ConfirmOp? && 0 < op.now
    requires op.id in w.gate.requests ==> w.gate.requests[op.id].submittedAt <= op.now
    ensures Exact(w, op)
  {
    hide Inv, GateOK, Moves, AfterConfirm, ConfirmAnswer, Persist, ValidOpaque, Mirrors;
    var id, c := op.id, op.confirmation;
    if id in w.gate.requests {
      InvGate(w, clock);
      ConfirmMoves(w.gate, op.now, id, c, clock);
      ConfirmLogsActor(w.gate, op.now, id, c);
      DecisionErrors(w.gate, op.now, id, c);
      var g := AfterConfirm(w.gate, op.now, id, c);
      WrittenMove(w, g, id, [ConfirmEvent(w.gate, op.now, id, c)], op.refuse, clock, clock);
      PersistErrors(w, g, id, op.refuse);
      SameActors([ConfirmEvent(w.gate, op.now, id, c)], c.actor);
    } else {
      TouchedCounter(w, id, op.refuse, clock);
    }
  }

  lemma WithdrawIsExact(w: World, now: Time, id: string, actor: string, confirmationID: string, reason: string, refuse: bool,
                        clock: Time)
    requires Inv(w, clock) && w.ledger.Some? && 0 < now && id in w.gate.requests
    ensures var r := Persist(w, Withdraw(w.gate, now, id, actor, confirmationID, reason), id, refuse);
      (r.Err? <==> refuse || !ValidOpaque(actor)) && (r.Err? ==> LedgerError(r.error))
  {
    hide Inv, GateOK, Moves, Persist, ValidOpaque, Mirrors;
    InvGate(w, clock);
    WithdrawMoves(w.gate, now, id, actor, confirmationID, reason, clock);
    P.WithdrawActor(w.gate, now, id, actor, confirmationID, reason);
    var g := Withdraw(w.gate, now, id, actor, confirmationID, reason);
    WrittenMove(w, g, id, [g.audit[|w.gate.audit|]], refuse, clock, clock);
    PersistErrors(w, g, id, refuse);
    SameActors([g.audit[|w.gate.audit|]], actor);
  }

  lemma RevokeIsExact(w: World, op: Op, clock: Time)
    requires Inv(w, clock) && w.ledger.Some? && op.RevokeOp? && 0 < op.now
    ensures Exact(w, op)
  {
    hide Inv, Persist, Withdraw, RevokeChecks, ValidOpaque;
    RevokeErrors(w.gate, op.id, op.actor, op.reason);
    if RevokeChecks(w.gate, op.id, op.actor, op.reason).Pass? {
      PassedRevoke(w.gate, op.id, op.actor, op.reason);
      WithdrawIsExact(w, op.now, op.id, op.actor, "", op.reason, op.refuse, clock);
    }
  }

  lemma ConsumeIsExact(w: World, op: Op, clock: Time)
    requires Inv(w, clock) && w.ledger.Some? && op.ConsumeOp? && 0 < op.now
    ensures Exact(w, op)
  {
    hide Inv, Persist, Withdraw, ConsumeChecks, ValidOpaque;
    ConsumeErrors(w.gate, op.now, op.id, op.scope, op.intent);
    if ConsumeChecks(w.gate, op.now, op.id, op.scope, op.intent).Pass? {
      PassedConsume(w.gate, op.now, op.id, op.scope, op.intent);
      var c := w.gate.requests[op.id].confirmation;
      WithdrawIsExact(w, op.now, op.id, c.actor, c.confirmationID, CONSUMED_REASON, op.refuse, clock);
    }
  }

  /** In every reachable world, a call is answered with an error of the ledger if and only if it gets as far
      as writing and the store refuses or the actor to be logged is ill formed; and then gate and ledger are
      exactly as they were. */
  lemma FailedWriteChangesNothing(w: World, op: Op, clock: Time)
    requires Inv(w, clock) && w.ledger.Some? && 0 < op.now && clock <= op.now
    ensures var (w', a) := Step(w, op);
      && (WriteFails(a) <==> Writes(w.gate, op) && (op.refuse || !ValidOpaque(LoggedActor(w.gate, op))))
      && (WriteFails(a) ==> w' == w)
  {
    InvLater(w, clock, op.now);
    hide Step, ValidOpaque, Writes, LoggedActor, WriteFails;
    if op.SubmitOp? {
      SubmitIsExact(w, op, op.now);
    } else if op.ConfirmOp? {
      if op.id in w.gate.requests { Submitted(w, clock, op.id); }
      hide Inv;
      ConfirmIsExact(w, op, op.now);
    } else if op.RevokeOp? {
      RevokeIsExact(w, op, op.now);
    } else {
      ConsumeIsExact(w, op, op.now);
    }
  }

  lemma Submitted(w: World, clock: Time, id: string)
    requires Inv(w, clock) && id in w.gate.requests
    ensures w.gate.requests[id].submittedAt <= clock
  {
    hide ValidateRecord, SoundConfirmation, SoundApproval, Trail, EventsBelong, UsedMatchesLog, OwnersMatchLog, Mirrors;
    assert GoodRecord(w.gate.requests[id], w.gate.policyEpoch, clock);
  }

  /** A request that is admitted and a revocation that passes always name a well-formed actor, so their
      writes fail exactly when the store refuses. */
  lemma AdmittedActorsAreValid(g: Gate, op: Op)
    requires Writes(g, op) && (op.SubmitOp? || op.RevokeOp?)
    ensures ValidOpaque(LoggedActor(g, op))
  {
    if op.SubmitOp? { AdmittedActor(g, op.request); }
    hide AdmitRequest, AllSpace, ValidReason;
  }
}
