/** What the gate guarantees over whole runs of Submit, Confirm, Revoke and
    ConsumeAuthorization, in any order, with any of the ledger writes refused. */
module GateTheorems {
  import opened Wrappers
  import opened ApprovalTypes
  import opened ApprovalRules
  import opened ApprovalLedger
  import opened ApprovalGate
  import opened GateInvariant
  import opened GateSafety
  import opened GateMoves

  // ----- every call keeps the invariant

  lemma InvLater(w: World, clock: Time, now: Time)
    requires Inv(w, clock) && clock <= now
    ensures Inv(w, now)
  {
    hide ValidateRecord, SoundConfirmation, SoundApproval, AutoApproved, Trail, BoundTo, Mirrors,
      UsedMatchesLog, OwnersMatchLog, EventsBelong;
  }

  lemma TouchedMirrors(g: Gate, l: Ledger, id: string)
    requires Mirrors(g, l)
    ensures Mirrors(g.(durable := g.durable[id := DurableSequence(g, id)]), l)
  {
    hide Key, EventsOf, Stored;
    var g' := g.(durable := g.durable[id := DurableSequence(g, id)]);
    assert forall x: string :: DurableSequence(g', x) == DurableSequence(g, x);
    forall x | x in g.requests
      ensures MirrorsRequest(g', l, x)
    {
      assert MirrorsRequest(g, l, x);
    }
  }

  /** Confirming an unknown request writes nothing and only touches a zero counter. */
  lemma TouchedCounter(w: World, id: string, refuse: bool, clock: Time)
    requires Inv(w, clock)
    ensures Persist(w, w.gate, id, refuse).Ok?
    ensures Inv(Persist(w, w.gate, id, refuse).value, clock)
    ensures Persist(w, w.gate, id, refuse).value.ledger == w.ledger
  {
    hide GateOK, Mirrors, ApplyBatch;
    if w.ledger.Some? {
      assert w.gate.audit[|w.gate.audit|..] == [];
      DurableIrrelevant(w.gate, Persist(w, w.gate, id, refuse).value.gate, clock);
      TouchedMirrors(w.gate, w.ledger.value, id);
    }
  }

  lemma SubmitKeepsInv(w: World, now: Time, raw: Request, refuse: bool, clock: Time)
    requires Inv(w, clock) && 0 < now <= clock
    ensures Inv(Submit(w, now, raw, refuse).0, clock)
  {
    hide Moves, Mirrors, ValidateRequest, AfterSubmit, NormalizeRequest, NewRecord, GateOK;
    var admitted := AdmitRequest(w.gate, raw);
    if admitted.Ok? {
      var req := admitted.value;
      SubmitMoves(w.gate, now, req, clock);
      WrittenMove(w, AfterSubmit(w.gate, now, req), req.id, SubmitEvents(w.gate, now, req), refuse, clock, clock);
      hide Persist, AdmitRequest;
    }
  }

  lemma ConfirmKeepsInv(w: World, now: Time, id: string, c: Confirmation, refuse: bool, clock: Time)
    requires Inv(w, clock) && 0 < now
    requires id in w.gate.requests ==> w.gate.requests[id].submittedAt <= now
    ensures Inv(Confirm(w, now, id, c, refuse).0, clock)
  {
    hide Moves, Mirrors, AfterConfirm, ConfirmAnswer, GateOK, Persist;
    if id in w.gate.requests {
      ConfirmMoves(w.gate, now, id, c, clock);
      WrittenMove(w, AfterConfirm(w.gate, now, id, c), id, [ConfirmEvent(w.gate, now, id, c)],
                  refuse, clock, clock);
    } else {
      TouchedCounter(w, id, refuse, clock);
    }
  }

  lemma WithdrawKeepsInv(w: World, now: Time, id: string, actor: string, confirmationID: string,
                         reason: string, refuse: bool, clock: Time)
    requires Inv(w, clock) && 0 < now && id in w.gate.requests
    ensures var r := Persist(w, Withdraw(w.gate, now, id, actor, confirmationID, reason), id, refuse);
      r.Ok? ==> Inv(r.value, clock)
  {
    hide Moves, Mirrors, Withdraw, GateOK;
    WithdrawMoves(w.gate, now, id, actor, confirmationID, reason, clock);
    var g' := Withdraw(w.gate, now, id, actor, confirmationID, reason);
    WrittenMove(w, g', id, [g'.audit[|w.gate.audit|]], refuse, clock, clock);
  }

  lemma RevokeKeepsInv(w: World, now: Time, id: string, actor: string, reason: string, refuse: bool, clock: Time)
    requires Inv(w, clock) && 0 < now
    ensures Inv(Revoke(w, now, id, actor, reason, refuse).0, clock)
  {
    hide Inv, Persist, Withdraw, RevokeChecks;
    if RevokeChecks(w.gate, id, actor, reason).Pass? {
      PassedRevoke(w.gate, id, actor, reason);
      WithdrawKeepsInv(w, now, id, actor, "", reason, refuse, clock);
    }
  }

  lemma ConsumeKeepsInv(w: World, now: Time, id: string, scope: string, intent: Token, refuse: bool, clock: Time)
    requires Inv(w, clock) && 0 < now
    ensures Inv(Consume(w, now, id, scope, intent, refuse).0, clock)
  {
    hide Inv, Persist, Withdraw, ConsumeChecks;
    if ConsumeChecks(w.gate, now, id, scope, intent).Pass? {
      PassedConsume(w.gate, now, id, scope, intent);
      var c := w.gate.requests[id].confirmation;
      WithdrawKeepsInv(w, now, id, c.actor, c.confirmationID, CONSUMED_REASON, refuse, clock);
    }
  }

  lemma StepKeepsInv(w: World, op: Op, clock: Time)
    requires Inv(w, clock) && 0 < op.now && clock <= op.now
    ensures Inv(Step(w, op).0, op.now)
  {
    hide Submit, Confirm, Revoke, Consume, Mirrors, EventsBelong, UsedMatchesLog, OwnersMatchLog, Trail,
      ValidateRecord, SoundApproval, SoundConfirmation, AutoApproved;
    InvLater(w, clock, op.now);
    match op
    case SubmitOp(now, req, refuse) => SubmitKeepsInv(w, now, req, refuse, now);
    case ConfirmOp(now, id, c, refuse) => ConfirmKeepsInv(w, now, id, c, refuse, now);
    case RevokeOp(now, id, actor, reason, refuse) => RevokeKeepsInv(w, now, id, actor, reason, refuse, now);
    case ConsumeOp(now, id, scope, intent, refuse) => ConsumeKeepsInv(w, now, id, scope, intent, refuse, now);
  }

  lemma PassedRevoke(g: Gate, id: string, actor: string, reason: string)
    requires RevokeChecks(g, id, actor, reason).Pass?
    ensures id in g.requests && g.requests[id].status != Revoked
  {
  }

  lemma PassedConsume(g: Gate, now: Time, id: string, scope: string, intent: Token)
    requires ConsumeChecks(g, now, id, scope, intent).Pass?
    ensures id in g.requests && g.requests[id].status == Approved
  {
    hide ValidateRecord;
  }

  // ----- runs from a fresh gate

  /** A fresh gate, with an empty ledger bound to it or with none. */
  function Start(epoch: nat, bound: bool): World {
    World(NewGate(epoch), if bound then Some(EMPTY_LEDGER) else None)
  }

  lemma StartIsGood(epoch: nat, bound: bool)
    ensures Inv(Start(epoch, bound), 0)
  {
  }

  lemma {:induction false} RunKeepsInv(w: World, ops: seq<Op>, clock: Time)
    requires Inv(w, clock) && Timed(clock, ops)
    ensures Inv(After(w, ops), ClockAfter(clock, ops))
  {
    hide Inv, Step;
    if ops != [] {
      var n := |ops| - 1;
      RunKeepsInv(w, ops[..n], clock);
      StepKeepsInv(After(w, ops[..n]), ops[n], ClockAfter(clock, ops[..n]));
    }
  }

  /** Every record a run can reach passes ValidateRecordForAdapter; an approval is
      either the automatic low-risk one or went through the whole interactive flow,
      and the log holds its authorization after its checkpoint. */
  lemma ReachableRecordsAreValid(epoch: nat, bound: bool, ops: seq<Op>, id: string)
    requires Timed(0, ops) && id in After(Start(epoch, bound), ops).gate.requests
    ensures var g := After(Start(epoch, bound), ops).gate; var r := g.requests[id];
      && ValidateRecord(r).Pass? && Trail(g.audit, r)
      && (r.status == Approved <==> r.commit.Some?)
      && (r.status == Approved ==> AutoApproved(r.request) || SoundApproval(r, r.commit.value))
  {
    hide After, SoundApproval, SoundConfirmation, AutoApproved, Trail, ValidateRecord;
    StartIsGood(epoch, bound);
    RunKeepsInv(Start(epoch, bound), ops, 0);
    var w := After(Start(epoch, bound), ops);
    assert GoodRecord(w.gate.requests[id], w.gate.policyEpoch, ClockAfter(0, ops));
    ApprovedIffCommit(w.gate.requests[id]);
  }

  lemma ApprovedIffCommit(r: Record)
    requires ValidateRecord(r).Pass?
    ensures r.status == Approved <==> r.commit.Some?
  {
    hide NormalizeLanguage, ValidateRequest, ExpectedPhrase, ValidOpaque, ConfirmationMatches,
      InteractiveCommit;
  }

  /** After every run the ledger holds, for each request, the gate's record and the
      gate's events of that request renumbered from 1 and sealed into one chain. */
  lemma LedgerMirrorsGate(epoch: nat, ops: seq<Op>)
    requires Timed(0, ops)
    ensures var w := After(Start(epoch, true), ops);
      w.ledger.Some? && Mirrors(w.gate, w.ledger.value)
  {
    hide Mirrors, GateOK;
    StartIsGood(epoch, true);
    RunKeepsInv(Start(epoch, true), ops, 0);
    LedgerStaysBound(Start(epoch, true), ops);
  }

  lemma {:induction false} LedgerStaysBound(w: World, ops: seq<Op>)
    ensures After(w, ops).ledger.Some? <==> w.ledger.Some?
  {
    hide Submit, Confirm, Revoke, Consume, Inv;
    if ops != [] {
      var n := |ops| - 1;
      LedgerStaysBound(w, ops[..n]);
      StepIsMonotone(After(w, ops[..n]), ops[n]);
      hide Step;
    }
  }

  // ----- writes that fail

  /** A refused write leaves gate and ledger exactly as they were. Only confirming an
      unknown request, which writes nothing, is not refused. */
  lemma RefusedCallChangesNothing(w: World, op: Op)
    requires w.ledger.Some? && op.refuse
    requires op.ConfirmOp? ==> op.id in w.gate.requests
    ensures Step(w, op).0 == w
  {
    hide ValidateRecord, ApplyAll, NormalizeRequest, ValidateRequest, Decide, NewRecord;
    match op
    case SubmitOp(now, raw, refuse) =>
      var admitted := AdmitRequest(w.gate, raw);
      if admitted.Ok? {
        var g' := AfterSubmit(w.gate, now, admitted.value);
        FirstEventWritten(w, g', raw.id);
      }
    case ConfirmOp(now, id, c, refuse) => FirstEventWritten(w, AfterConfirm(w.gate, now, id, c), id);
    case RevokeOp(now, id, actor, reason, refuse) =>
      if RevokeChecks(w.gate, id, actor, reason).Pass? {
        FirstEventWritten(w, Withdraw(w.gate, now, id, actor, "", reason), id);
      }
    case ConsumeOp(now, id, scope, intent, refuse) =>
      if ConsumeChecks(w.gate, now, id, scope, intent).Pass? {
        var c := w.gate.requests[id].confirmation;
        FirstEventWritten(w, Withdraw(w.gate, now, id, c.actor, c.confirmationID, CONSUMED_REASON), id);
      }
  }

  lemma FirstEventWritten(w: World, g: Gate, id: string)
    requires w.ledger.Some? && |w.gate.audit| < |g.audit| && g.audit[|w.gate.audit|].requestID == id
    ensures Persist(w, g, id, true) == Err(LedgerRefused)
  {
    var added := g.audit[|w.gate.audit|..];
    assert added[0].requestID == id;
    assert |Mutations(RecordOf(g, id), added, id, DurableSequence(g, id))| > 0;
  }

  // ----- what only grows

  lemma PersistKeepsGate(w: World, g: Gate, id: string, refuse: bool)
    requires |w.gate.audit| <= |g.audit| && Persist(w, g, id, refuse).Ok?
    ensures var w' := Persist(w, g, id, refuse).value;
      w'.gate == g.(durable := w'.gate.durable) && (w'.ledger.Some? <==> w.ledger.Some?)
  {
    hide Mutations, ApplyBatch;
  }

  /** Used IDs stay used, reservations keep their owner, requests stay and keep their
      request, and a revoked request stays revoked. */
  ghost predicate Grows(g: Gate, g': Gate) {
    && g'.policyEpoch == g.policyEpoch && g.usedIDs <= g'.usedIDs
    && (forall x | x in g.owners :: x in g'.owners && g'.owners[x] == g.owners[x])
    && (forall id | id in g.requests ::
          && id in g'.requests && g'.requests[id].request == g.requests[id].request
          && (g.requests[id].status == Revoked ==> g'.requests[id].status == Revoked)
          && (g.requests[id].status != Pending ==> g'.requests[id].status != Pending)
          && (g'.requests[id].status == Approved ==>
                g.requests[id].status == Approved || g.requests[id].status == Pending))
  }

  lemma ConfirmGrows(g: Gate, now: Time, id: string, raw: Confirmation)
    requires id in g.requests
    ensures Grows(g, AfterConfirm(g, now, id, raw))
  {
    if !Decide(g, now, id, raw).Reject? {
      DecidedPending(g, now, id, raw);
      if Decide(g, now, id, raw).Check? { CheckedConfirmation(g, now, id, raw); }
      hide Decide, Sensitive;
    }
  }

  lemma SubmitIsMonotone(w: World, now: Time, raw: Request, refuse: bool)
    ensures var w' := Submit(w, now, raw, refuse).0; Grows(w.gate, w'.gate) && (w.ledger.Some? <==> w'.ledger.Some?)
  {
    hide Persist, NormalizeRequest, ValidateRequest, NewRecord, AdmitRequest, MakeEvent;
    var admitted := AdmitRequest(w.gate, raw);
    if admitted.Ok? && Persist(w, AfterSubmit(w.gate, now, admitted.value), raw.id, refuse).Ok? {
      PersistKeepsGate(w, AfterSubmit(w.gate, now, admitted.value), raw.id, refuse);
    }
  }

  lemma ConfirmIsMonotone(w: World, now: Time, id: string, c: Confirmation, refuse: bool)
    ensures var w' := Confirm(w, now, id, c, refuse).0; Grows(w.gate, w'.gate) && (w.ledger.Some? <==> w'.ledger.Some?)
  {
    hide Persist, AfterConfirm, ConfirmAnswer;
    var g := if id in w.gate.requests then AfterConfirm(w.gate, now, id, c) else w.gate;
    if id in w.gate.requests { ConfirmGrows(w.gate, now, id, c); }
    if Persist(w, g, id, refuse).Ok? { PersistKeepsGate(w, g, id, refuse); }
  }

  lemma WithdrawIsMonotone(w: World, now: Time, id: string, actor: string, confirmationID: string, reason: string,
                           refuse: bool)
    requires id in w.gate.requests
    ensures var r := Persist(w, Withdraw(w.gate, now, id, actor, confirmationID, reason), id, refuse);
      r.Ok? ==> Grows(w.gate, r.value.gate) && (w.ledger.Some? <==> r.value.ledger.Some?)
  {
    hide Persist, MakeEvent;
    var g := Withdraw(w.gate, now, id, actor, confirmationID, reason);
    if Persist(w, g, id, refuse).Ok? { PersistKeepsGate(w, g, id, refuse); }
  }

  lemma StepIsMonotone(w: World, op: Op)
    ensures Grows(w.gate, Step(w, op).0.gate)
    ensures w.ledger.Some? <==> Step(w, op).0.ledger.Some?
  {
    hide Grows, Persist, Submit, Confirm, Withdraw, RevokeChecks, ConsumeChecks;
    GrowsReflexive(w.gate);
    match op
    case SubmitOp(now, raw, refuse) => SubmitIsMonotone(w, now, raw, refuse);
    case ConfirmOp(now, id, c, refuse) => ConfirmIsMonotone(w, now, id, c, refuse);
    case RevokeOp(now, id, actor, reason, refuse) =>
      if RevokeChecks(w.gate, id, actor, reason).Pass? {
        PassedRevoke(w.gate, id, actor, reason);
        WithdrawIsMonotone(w, now, id, actor, "", reason, refuse);
      }
    case ConsumeOp(now, id, scope, intent, refuse) =>
      if ConsumeChecks(w.gate, now, id, scope, intent).Pass? {
        PassedConsume(w.gate, now, id, scope, intent);
        var c := w.gate.requests[id].confirmation;
        WithdrawIsMonotone(w, now, id, c.actor, c.confirmationID, CONSUMED_REASON, refuse);
      }
  }

  lemma GrowsTransitive(g1: Gate, g2: Gate, g3: Gate)
    requires Grows(g1, g2) && Grows(g2, g3)
    ensures Grows(g1, g3)
  {
  }

  lemma {:induction false} RunGrows(w: World, ops: seq<Op>, i: nat, j: nat)
    requires i <= j <= |ops|
    ensures Grows(After(w, ops[..i]).gate, After(w, ops[..j]).gate)
    decreases j - i
  {
    hide Grows, Step;
    if i == j {
      GrowsReflexive(After(w, ops[..i]).gate);
    } else {
      RunGrows(w, ops, i, j - 1);
      assert ops[..j][..j - 1] == ops[..j - 1];
      StepIsMonotone(After(w, ops[..j - 1]), ops[j - 1]);
      GrowsTransitive(After(w, ops[..i]).gate, After(w, ops[..j - 1]).gate, After(w, ops[..j]).gate);
    }
  }

  lemma GrowsReflexive(g: Gate)
    ensures Grows(g, g)
  {
  }

  // ----- single use

  /** A successful Confirm spends its ID: unused before, used after, and reserved
      by nobody else. */
  lemma ConfirmSpendsID(w: World, now: Time, id: string, c: Confirmation, refuse: bool)
    requires Confirm(w, now, id, c, refuse).1.Ok?
    ensures var x, w' := c.confirmationID, Confirm(w, now, id, c, refuse).0;
      && Confirm(w, now, id, c, refuse).1.value.confirmationID == x
      && x !in w.gate.usedIDs && x in w'.gate.usedIDs
      && (x in w.gate.owners ==> w.gate.owners[x] == id)
  {
    hide Persist, Decide;
    var g := AfterConfirm(w.gate, now, id, c);
    PersistKeepsGate(w, g, id, refuse);
    AuthorizedConfirmation(w.gate, now, id, c);
    AuthorizedKeepsID(w.gate, now, id, c);
  }

  lemma AuthorizedKeepsID(g: Gate, now: Time, id: string, raw: Confirmation)
    requires id in g.requests && Decide(g, now, id, raw).Authorize?
    ensures Decide(g, now, id, raw).c.confirmationID == raw.confirmationID
  {
    hide ConfirmationChecks, SameCheckpoint;
  }

  /** In every run, two successful confirmations never share an ID. */
  lemma ConfirmationsAreSingleUse(w: World, ops: seq<Op>, i: nat, j: nat)
    requires i < j < |ops| && ops[i].ConfirmOp? && ops[j].ConfirmOp?
    requires AnswerAt(w, ops, i).commit.Ok? && AnswerAt(w, ops, j).commit.Ok?
    ensures ops[i].confirmation.confirmationID != ops[j].confirmation.confirmationID
  {
    hide Confirm, Grows;
    var a, b := ops[i], ops[j];
    ConfirmSpendsID(After(w, ops[..i]), a.now, a.id, a.confirmation, a.refuse);
    ConfirmSpendsID(After(w, ops[..j]), b.now, b.id, b.confirmation, b.refuse);
    AfterStep(w, ops, i);
    RunGrows(w, ops, i + 1, j);
    GrowsKeepsUsed(After(w, ops[..i + 1]).gate, After(w, ops[..j]).gate);
  }

  lemma GrowsKeepsUsed(g: Gate, g': Gate)
    requires Grows(g, g')
    ensures g.usedIDs <= g'.usedIDs
    ensures forall x | x in g.owners :: x in g'.owners && g'.owners[x] == g.owners[x]
  {
  }

  lemma AfterStep(w: World, ops: seq<Op>, i: nat)
    requires i < |ops|
    ensures After(w, ops[..i + 1]) == Step(After(w, ops[..i]), ops[i]).0
  {
    hide Step;
    assert ops[..i + 1][..i] == ops[..i];
  }

  /** A checkpoint reserves its ID for its own request. */
  lemma CheckpointReserves(w: World, now: Time, id: string, c: Confirmation, refuse: bool, clock: Time)
    requires Inv(w, clock)
    requires Confirm(w, now, id, c, refuse).1 == Err(ThirdConfirmation)
    requires id in w.gate.requests && Decide(w.gate, now, id, c).Check?
    requires Persist(w, AfterConfirm(w.gate, now, id, c), id, refuse).Ok?
    ensures var w' := Confirm(w, now, id, c, refuse).0;
      c.confirmationID in w'.gate.owners && w'.gate.owners[c.confirmationID] == id
  {
    hide Persist, Decide, GoodRecord, Mirrors;
    var g, d := AfterConfirm(w.gate, now, id, c), Decide(w.gate, now, id, c);
    PersistKeepsGate(w, g, id, refuse);
    CheckedKeepsID(w.gate, now, id, c);
    CheckedConfirmation(w.gate, now, id, c);
    if !d.first {
      RecordAt(w.gate, id, clock);
      ReservedByTrail(w.gate, id, clock);
    }
  }

  lemma CheckedKeepsID(g: Gate, now: Time, id: string, raw: Confirmation)
    requires id in g.requests && Decide(g, now, id, raw).Check?
    ensures Decide(g, now, id, raw).c.confirmationID == raw.confirmationID
  {
    hide ConfirmationChecks, SameCheckpoint;
  }

  /** ThirdConfirmation is answered by a written checkpoint and by nothing else. */
  lemma ThirdConfirmationMeansCheckpoint(w: World, now: Time, id: string, c: Confirmation, refuse: bool)
    requires Confirm(w, now, id, c, refuse).1 == Err(ThirdConfirmation)
    ensures id in w.gate.requests && Decide(w.gate, now, id, c).Check?
    ensures Persist(w, AfterConfirm(w.gate, now, id, c), id, refuse).Ok?
  {
    PersistErrors(w, if id in w.gate.requests then AfterConfirm(w.gate, now, id, c) else w.gate, id, refuse);
    if id in w.gate.requests { RejectionErrors(w.gate, now, id, c); }
    hide Persist, Decide, AfterConfirm;
  }

  lemma RejectionErrors(g: Gate, now: Time, id: string, c: Confirmation)
    requires id in g.requests
    ensures Decide(g, now, id, c) != Reject(ThirdConfirmation)
  {
    hide NormalizeLanguage, ExpectedPhrase, ValidOpaque, AllSpace, ValidReason, Sensitive;
  }

  /** The errors a ledger write answers with, none of which the gate itself gives. */
  predicate LedgerError(e: Error) {
    e == InvalidPersistence || e == BindingConflict || e == IdempotencyConflict || e == EventSequence || e == LedgerRefused
  }

  lemma {:induction false} ApplyAllErrors(l: Ledger, ms: seq<Mutation>)
    ensures ApplyAll(l, ms).Err? ==> LedgerError(ApplyAll(l, ms).error)
    decreases |ms|
  {
    if ms != [] {
      hide ValidateRequest, ValidOpaque, Chained, SameBinding;
      if Apply(l, ms[0]).Ok? { ApplyAllErrors(Apply(l, ms[0]).value, ms[1..]); }
    }
  }

  lemma PersistErrors(w: World, g: Gate, id: string, refuse: bool)
    requires |w.gate.audit| <= |g.audit|
    ensures Persist(w, g, id, refuse).Err? ==> LedgerError(Persist(w, g, id, refuse).error)
  {
    hide Mutations, ApplyAll;
    if w.ledger.Some? {
      ApplyAllErrors(w.ledger.value,
        Mutations(RecordOf(g, id), g.audit[|w.gate.audit|..], id, DurableSequence(g, id)));
    }
  }

  /** In every run from a fresh gate, an ID checkpointed by one request is completed
      by that request or by none. */
  lemma ReservedIDsBelongToOneRequest(epoch: nat, bound: bool, ops: seq<Op>, i: nat, j: nat)
    requires Timed(0, ops) && i < j < |ops| && ops[i].ConfirmOp? && ops[j].ConfirmOp?
    requires AnswerAt(Start(epoch, bound), ops, i).commit == Err(ThirdConfirmation)
    requires AnswerAt(Start(epoch, bound), ops, j).commit.Ok?
    requires ops[i].confirmation.confirmationID == ops[j].confirmation.confirmationID
    ensures ops[i].id == ops[j].id
  {
    hide Confirm, Grows, Inv, Decide, Persist, AfterConfirm;
    var w := Start(epoch, bound);
    StartIsGood(epoch, bound);
    RunKeepsInv(w, ops[..i], 0);
    var a, b := ops[i], ops[j];
    var wi := After(w, ops[..i]);
    ThirdConfirmationMeansCheckpoint(wi, a.now, a.id, a.confirmation, a.refuse);
    CheckpointReserves(wi, a.now, a.id, a.confirmation, a.refuse, ClockAfter(0, ops[..i]));
    AfterStep(w, ops, i);
    RunGrows(w, ops, i + 1, j);
    GrowsKeepsUsed(After(w, ops[..i + 1]).gate, After(w, ops[..j]).gate);
    ConfirmSpendsID(After(w, ops[..j]), b.now, b.id, b.confirmation, b.refuse);
  }

  lemma ConsumeRevokes(w: World, now: Time, id: string, scope: string, intent: Token, refuse: bool)
    requires Consume(w, now, id, scope, intent, refuse).1 == Pass
    ensures id in w.gate.requests && w.gate.requests[id].status == Approved
    ensures var w' := Consume(w, now, id, scope, intent, refuse).0;
      id in w'.gate.requests && w'.gate.requests[id].status == Revoked
  {
    hide Persist, ConsumeChecks;
    PassedConsume(w.gate, now, id, scope, intent);
    var c := w.gate.requests[id].confirmation;
    PersistKeepsGate(w, Withdraw(w.gate, now, id, c.actor, c.confirmationID, CONSUMED_REASON), id, refuse);
  }

  /** In every run, an authorization is consumed at most once. */
  lemma AuthorizationIsConsumedOnce(w: World, ops: seq<Op>, i: nat, j: nat)
    requires i < j < |ops| && ops[i].ConsumeOp? && ops[j].ConsumeOp?
    requires AnswerAt(w, ops, i) == DoneAnswer(Pass) && AnswerAt(w, ops, j) == DoneAnswer(Pass)
    ensures ops[i].id != ops[j].id
  {
    hide Consume, Grows;
    var a, b := ops[i], ops[j];
    ConsumeRevokes(After(w, ops[..i]), a.now, a.id, a.scope, a.intent, a.refuse);
    ConsumeRevokes(After(w, ops[..j]), b.now, b.id, b.scope, b.intent, b.refuse);
    AfterStep(w, ops, i);
    RunGrows(w, ops, i + 1, j);
    RevokedStaysRevoked(After(w, ops[..i + 1]).gate, After(w, ops[..j]).gate, a.id);
  }

  lemma RevokedStaysRevoked(g: Gate, g': Gate, id: string)
    requires Grows(g, g') && id in g.requests && g.requests[id].status == Revoked
    ensures id in g'.requests && g'.requests[id].status == Revoked
  {
  }
}
