/** Which authorizations can share a confirmation ID. Confirm never reuses one; a pre-approval names its
    own, "preapproved:" and the request's ID, and looks at nothing. */
module GateSingleUse {
  import opened Wrappers
  import opened ApprovalTypes
  import opened ApprovalRules
  import opened ApprovalGate
  import opened GateInvariant
  import opened GateWrites
  import opened GateSafety
  import opened GateMoves
  import opened GateTheorems
  import P = GateProgress
  import F = GateFailures

  /** The commit a call authorizes with, if it does. */
  function Authorizes(a: Answer): Option<Commit> {
    match a
    case SubmitAnswer(Ok(r)) => r.commit
    case ConfirmedAnswer(Ok(c)) => Some(c)
    case _ => None
  }

  ghost predicate AuthorizesAs(w: World, op: Op, x: string) {
    Authorizes(Step(w, op).1).Some? && Authorizes(Step(w, op).1).value.confirmationID == x
  }

  // ----- what a submission spends

  lemma NewCommitID(now: Time, req: Request)
    requires ValidateRequest(req).Pass?
    ensures NewRecord(now, req).commit.Some? <==> AutoApproved(req)
    ensures AutoApproved(req) ==>
      NewRecord(now, req).commit.value.confirmationID == PreApprovedID(req) && NewRecord(now, req).status == Approved
  {
    hide ValidateRequest, ExpectedPhrase;
  }

  /** A pre-approval spends the ID it makes from its own request, which was new to the gate. */
  lemma SubmitSpendsID(w: World, now: Time, raw: Request, refuse: bool)
    requires var r := Submit(w, now, raw, refuse).1; r.Ok? && r.value.commit.Some?
    ensures var (w', r) := Submit(w, now, raw, refuse); var x := r.value.commit.value.confirmationID;
      && x == PreApprovedID(raw) && x in w'.gate.usedIDs && raw.id !in w.gate.requests && raw.id in w'.gate.requests
      && ValidIdentifier(raw.id)
  {
    hide NormalizeRequest, ValidateRequest, NewRecord, Persist, AutoApproved, MakeEvent;
    var req := AdmitRequest(w.gate, raw).value;
    NewCommitID(now, req);
    AdmittedID(w.gate, raw);
    PersistKeepsGate(w, AfterSubmit(w.gate, now, req), raw.id, refuse);
  }

  lemma AdmittedID(g: Gate, raw: Request)
    requires AdmitRequest(g, raw).Ok?
    ensures ValidIdentifier(raw.id)
  {
    hide NormalizeRequest, NormalizeLanguage, ValidOpaque;
  }

  /** Every authorization's ID is used afterwards; a confirmation's was not before. */
  lemma AuthorizationSpendsID(w: World, op: Op, x: string)
    requires AuthorizesAs(w, op, x)
    ensures x in Step(w, op).0.gate.usedIDs && (op.SubmitOp? || op.ConfirmOp?)
    ensures op.ConfirmOp? ==> x == op.confirmation.confirmationID && x !in w.gate.usedIDs
    ensures op.ConfirmOp? ==> (x in w.gate.owners ==> w.gate.owners[x] == op.id)
    ensures op.SubmitOp? ==> x == PreApprovedID(op.request) && op.request.id !in w.gate.requests
    ensures op.SubmitOp? ==> op.request.id in Step(w, op).0.gate.requests && ValidIdentifier(op.request.id)
  {
    hide Submit, Confirm, Revoke, Consume, ValidOpaque;
    match op
    case SubmitOp(now, raw, refuse) => SubmitSpendsID(w, now, raw, refuse);
    case ConfirmOp(now, id, c, refuse) => ConfirmSpendsID(w, now, id, c, refuse);
    case _ =>
  }

  lemma PreApprovedIDInjective(r1: Request, r2: Request)
    requires PreApprovedID(r1) == PreApprovedID(r2)
    ensures r1.id == r2.id
  {
    assert PreApprovedID(r1)[12..] == r1.id && PreApprovedID(r2)[12..] == r2.id;
  }

  // ----- over a run

  /** Of two authorizations with one ID, the first is a confirmation and the second a pre-approval. */
  lemma OnlyPreApprovalRepeats(w: World, ops: seq<Op>, i: nat, j: nat, x: string)
    requires i < j < |ops|
    requires AuthorizesAs(After(w, ops[..i]), ops[i], x) && AuthorizesAs(After(w, ops[..j]), ops[j], x)
    ensures ops[i].ConfirmOp? && ops[j].SubmitOp? && x == ops[i].confirmation.confirmationID == PreApprovedID(ops[j].request)
  {
    hide Step, Grows, AuthorizesAs, ValidOpaque, PreApprovedID;
    var wi, wj := After(w, ops[..i]), After(w, ops[..j]);
    AuthorizationSpendsID(wi, ops[i], x);
    AuthorizationSpendsID(wj, ops[j], x);
    AfterStep(w, ops, i);
    RunGrows(w, ops, i + 1, j);
    GrowsKeepsUsed(After(w, ops[..i + 1]).gate, wj.gate);
    if ops[i].SubmitOp? && ops[j].SubmitOp? {
      PreApprovedIDInjective(ops[i].request, ops[j].request);
      GrowsKeepsRequest(After(w, ops[..i + 1]).gate, wj.gate, ops[i].request.id);
    }
  }

  lemma GrowsKeepsRequest(g: Gate, g': Gate, id: string)
    requires Grows(g, g') && id in g.requests
    ensures id in g'.requests
  {
  }

  /** In a run in which no confirmation ID begins like a pre-approval's, no two authorizations of any kind
      share an ID. */
  lemma AuthorizationsAreSingleUse(w: World, ops: seq<Op>, i: nat, j: nat, x: string, y: string)
    requires forall k | 0 <= k < |ops| && ops[k].ConfirmOp? :: !(PREAPPROVED <= ops[k].confirmation.confirmationID)
    requires i < j < |ops|
    requires AuthorizesAs(After(w, ops[..i]), ops[i], x) && AuthorizesAs(After(w, ops[..j]), ops[j], y)
    ensures x != y
  {
    hide AuthorizesAs;
    if x == y {
      OnlyPreApprovalRepeats(w, ops, i, j, x);
    }
  }

  /** An ID checkpointed by one request authorizes another only as that one's own pre-approval. */
  lemma ReservedIDsStayReserved(epoch: nat, bound: bool, ops: seq<Op>, i: nat, j: nat)
    requires Timed(0, ops) && i < j < |ops| && ops[i].ConfirmOp?
    requires AnswerAt(Start(epoch, bound), ops, i).commit == Err(ThirdConfirmation)
    requires AuthorizesAs(After(Start(epoch, bound), ops[..j]), ops[j], ops[i].confirmation.confirmationID)
    ensures if ops[j].ConfirmOp? then ops[j].id == ops[i].id
            else ops[j].SubmitOp? && ops[i].confirmation.confirmationID == PreApprovedID(ops[j].request)
  {
    var x := ops[i].confirmation.confirmationID;
    AuthorizationSpendsID(After(Start(epoch, bound), ops[..j]), ops[j], x);
    if ops[j].ConfirmOp? {
      ConfirmedAnswerOk(After(Start(epoch, bound), ops[..j]), ops[j], x);
      ReservedIDsBelongToOneRequest(epoch, bound, ops, i, j);
    }
    hide AuthorizesAs, Timed;
  }

  lemma ConfirmedAnswerOk(w: World, op: Op, x: string)
    requires AuthorizesAs(w, op, x) && op.ConfirmOp?
    ensures Step(w, op).1.ConfirmedAnswer? && Step(w, op).1.commit.Ok?
  {
    hide Confirm;
  }

  // ----- exactly which used IDs can come again

  /** A low-risk request that is approved as it is submitted. */
  function Routine(id: string, epoch: nat): Request {
    Request(id, Low, "s", epoch, 1, true, false, false, false, false, false, false, "a", "t", ZH_CN, Literal(""), "", Literal(""))
  }

  lemma RoutineIsAdmitted(g: Gate, id: string)
    requires ValidIdentifier(id) && id !in g.requests
    ensures var admitted := AdmitRequest(g, Routine(id, g.policyEpoch)); admitted.Ok? && AutoApproved(admitted.value)
    ensures AdmitRequest(g, Routine(id, g.policyEpoch)).value.actor == "a"
  {
    CanonicalTagsAreFixed();
    hide NormalizeLanguage;
    assert ValidOpaque("") && ValidOpaque("s") && ValidOpaque("a") && ValidOpaque("t") by { ShortNames(); }
    hide ValidOpaque;
    assert !SensitiveScope("s") by { ShortScope(); }
    hide SensitiveScope;
  }

  lemma ShortNames()
    ensures ValidOpaque("") && ValidOpaque("s") && ValidOpaque("a") && ValidOpaque("t")
  {
  }

  lemma ShortScope()
    ensures !SensitiveScope("s")
  {
  }

  /** A used ID can authorize once more if and only if it is "preapproved:" and the ID of a request the gate
      does not know yet. */
  lemma UsedIDRepeatsIff(w: World, x: string, clock: Time)
    requires Inv(w, clock) && x in w.gate.usedIDs
    ensures (exists op :: AuthorizesAs(w, op, x))
       <==> (exists id :: x == PREAPPROVED + id && ValidIdentifier(id) && id !in w.gate.requests)
  {
    if op :| AuthorizesAs(w, op, x) {
      RepeatIsPreApproval(w, op, x);
    }
    if id :| x == PREAPPROVED + id && ValidIdentifier(id) && id !in w.gate.requests {
      RoutineAuthorizes(w, id, clock);
    }
  }

  lemma RepeatIsPreApproval(w: World, op: Op, x: string)
    requires AuthorizesAs(w, op, x) && x in w.gate.usedIDs
    ensures op.SubmitOp? && x == PREAPPROVED + op.request.id && ValidIdentifier(op.request.id) && op.request.id !in w.gate.requests
  {
    hide AuthorizesAs, ValidOpaque, Step;
    AuthorizationSpendsID(w, op, x);
  }

  lemma RoutineAuthorizes(w: World, id: string, clock: Time)
    requires Inv(w, clock) && ValidIdentifier(id) && id !in w.gate.requests
    ensures AuthorizesAs(w, SubmitOp(clock + 1, Routine(id, w.gate.policyEpoch), false), PREAPPROVED + id)
  {
    hide Inv, ValidOpaque, AdmitRequest, AutoApproved, NewRecord, AfterSubmit, Persist, Routine, Moves, ValidateRequest;
    var raw, now := Routine(id, w.gate.policyEpoch), clock + 1;
    InvLater(w, clock, now);
    RoutineIsAdmitted(w.gate, id);
    ShortNames();
    var req := AdmitRequest(w.gate, raw).value;
    NewCommitID(now, req);
    F.InvGate(w, now);
    SubmitMoves(w.gate, now, req, now);
    F.SubmitLogsActor(w.gate, now, req);
    F.SameActors(SubmitEvents(w.gate, now, req), req.actor);
    WrittenMove(w, AfterSubmit(w.gate, now, req), req.id, SubmitEvents(w.gate, now, req), false, now, now);
    F.MoveLogs(w.gate, AfterSubmit(w.gate, now, req), req.id, SubmitEvents(w.gate, now, req), now);
    P.NoLedger(w, AfterSubmit(w.gate, now, req), req.id);
    RoutineID(id, w.gate.policyEpoch);
  }

  lemma RoutineID(id: string, epoch: nat)
    ensures Routine(id, epoch).id == id
  {
  }
}
