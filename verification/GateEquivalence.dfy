/** Two gates with the same face and the same ledger answer every run of calls
    alike; so does a gate restored from the ledger. */
module GateEquivalence {
  import opened Wrappers
  import opened ApprovalTypes
  import opened ApprovalRules
  import opened ApprovalLedger
  import opened ApprovalGate
  import opened GateInvariant
  import opened GateTheorems
  import opened GateRestart

  /** Equal but for the number each gate gave the event. */
  ghost predicate SameButNumber(es1: seq<AuditEvent>, es2: seq<AuditEvent>) {
    |es1| == |es2| && forall i | 0 <= i < |es1| :: es1[i].(sequence := 0) == es2[i].(sequence := 0)
  }

  lemma {:induction false} SameMutations(r: Record, es1: seq<AuditEvent>, es2: seq<AuditEvent>, id: string, local: nat)
    requires SameButNumber(es1, es2)
    ensures Mutations(r, es1, id, local) == Mutations(r, es2, id, local)
  {
    if es1 != [] {
      assert es1[0].(sequence := 0) == es2[0].(sequence := 0);
      assert es1[0].requestID == es2[0].(sequence := 0).requestID;
      assert es1[0].(sequence := local + 1) == es2[0].(sequence := local + 1) by {
        assert es1[0].(sequence := 0).(sequence := local + 1) == es2[0].(sequence := 0).(sequence := local + 1);
      }
      SameMutations(r, es1[1..], es2[1..], id, local);
      SameMutations(r, es1[1..], es2[1..], id, local + 1);
    }
  }

  ghost predicate SameWorld(w1: World, w2: World) {
    SameFace(w1.gate, w2.gate) && w1.ledger == w2.ledger
  }

  ghost predicate SameResult(r1: Result<World>, r2: Result<World>) {
    if r1.Ok? && r2.Ok? then SameWorld(r1.value, r2.value) else r1 == r2
  }

  /** g1 and g2 come from w1 and w2 by the same change and the same events. */
  ghost predicate SameChange(w1: World, g1: Gate, w2: World, g2: Gate) {
    && SameFace(g1, g2) && |w1.gate.audit| <= |g1.audit| && |w2.gate.audit| <= |g2.audit|
    && SameButNumber(g1.audit[|w1.gate.audit|..], g2.audit[|w2.gate.audit|..])
  }

  lemma SamePersist(w1: World, g1: Gate, w2: World, g2: Gate, id: string, refuse: bool)
    requires SameWorld(w1, w2) && SameChange(w1, g1, w2, g2)
    ensures SameResult(Persist(w1, g1, id, refuse), Persist(w2, g2, id, refuse))
  {
    hide Mutations, ApplyBatch, SameButNumber;
    SameMutations(RecordOf(g1, id), g1.audit[|w1.gate.audit|..], g2.audit[|w2.gate.audit|..], id,
                  DurableSequence(g1, id));
    assert DurableSequence(g1, id) == DurableSequence(g2, id);
    var batch := Mutations(RecordOf(g1, id), g1.audit[|w1.gate.audit|..], id, DurableSequence(g1, id));
    SameFaceCounted(g1, g2, id, DurableSequence(g1, id) + |batch|);
  }

  lemma SameFaceCounted(g1: Gate, g2: Gate, id: string, n: nat)
    requires SameFace(g1, g2)
    ensures SameFace(g1.(durable := g1.durable[id := n]), g2.(durable := g2.durable[id := n]))
  {
    var h1, h2 := g1.(durable := g1.durable[id := n]), g2.(durable := g2.durable[id := n]);
    forall x: string
      ensures DurableSequence(h1, x) == DurableSequence(h2, x)
    {
      assert DurableSequence(g1, x) == DurableSequence(g2, x);
    }
  }

  lemma SameSubmit(w1: World, w2: World, now: Time, req: Request)
    requires SameWorld(w1, w2) && ValidateRequest(req).Pass?
    ensures SameChange(w1, AfterSubmit(w1.gate, now, req), w2, AfterSubmit(w2.gate, now, req))
  {
    hide ValidateRequest, NewRecord;
    SameCounters(w1.gate, AfterSubmit(w1.gate, now, req), w2.gate, AfterSubmit(w2.gate, now, req));
  }

  lemma SameCounters(g1: Gate, h1: Gate, g2: Gate, h2: Gate)
    requires SameFace(g1, g2) && h1.durable == g1.durable && h2.durable == g2.durable
    ensures forall id: string :: DurableSequence(h1, id) == DurableSequence(h2, id)
  {
    forall id: string
      ensures DurableSequence(h1, id) == DurableSequence(h2, id)
    {
      assert DurableSequence(g1, id) == DurableSequence(g2, id);
    }
  }

  lemma SameDecision(g1: Gate, g2: Gate, now: Time, id: string, c: Confirmation)
    requires SameFace(g1, g2) && id in g1.requests
    ensures Decide(g1, now, id, c) == Decide(g2, now, id, c)
  {
    assert ConfirmationChecks(g1, now, id, c) == ConfirmationChecks(g2, now, id, c) by {
      hide NormalizeLanguage, ExpectedPhrase, ValidOpaque, BreakGlassChecks, HighRisk, DurableSequence;
    }
    hide ConfirmationChecks, SameCheckpoint, Sensitive, DurableSequence;
  }

  lemma SameConfirm(w1: World, w2: World, now: Time, id: string, c: Confirmation)
    requires SameWorld(w1, w2) && id in w1.gate.requests
    ensures SameChange(w1, AfterConfirm(w1.gate, now, id, c), w2, AfterConfirm(w2.gate, now, id, c))
    ensures ConfirmAnswer(w1.gate, now, id, c) == ConfirmAnswer(w2.gate, now, id, c)
  {
    hide Decide, DurableSequence, CommitFor;
    SameDecision(w1.gate, w2.gate, now, id, c);
    SameCounters(w1.gate, AfterConfirm(w1.gate, now, id, c), w2.gate, AfterConfirm(w2.gate, now, id, c));
  }

  lemma SameWithdraw(w1: World, w2: World, now: Time, id: string, actor: string, confirmationID: string, reason: string)
    requires SameWorld(w1, w2) && id in w1.gate.requests
    ensures SameChange(w1, Withdraw(w1.gate, now, id, actor, confirmationID, reason),
                       w2, Withdraw(w2.gate, now, id, actor, confirmationID, reason))
  {
    hide DurableSequence;
    SameCounters(w1.gate, Withdraw(w1.gate, now, id, actor, confirmationID, reason),
                 w2.gate, Withdraw(w2.gate, now, id, actor, confirmationID, reason));
  }

  lemma SameStepSubmit(w1: World, w2: World, now: Time, raw: Request, refuse: bool)
    requires SameWorld(w1, w2)
    ensures Submit(w1, now, raw, refuse).1 == Submit(w2, now, raw, refuse).1
    ensures SameWorld(Submit(w1, now, raw, refuse).0, Submit(w2, now, raw, refuse).0)
  {
    hide ValidateRequest, NormalizeRequest, Persist, AfterSubmit, NewRecord, DurableSequence;
    assert AdmitRequest(w1.gate, raw) == AdmitRequest(w2.gate, raw);
    if AdmitRequest(w1.gate, raw).Ok? {
      var req := AdmitRequest(w1.gate, raw).value;
      SameSubmit(w1, w2, now, req);
      SamePersist(w1, AfterSubmit(w1.gate, now, req), w2, AfterSubmit(w2.gate, now, req), req.id, refuse);
    }
  }

  lemma SameStepConfirm(w1: World, w2: World, now: Time, id: string, c: Confirmation, refuse: bool)
    requires SameWorld(w1, w2)
    ensures Confirm(w1, now, id, c, refuse).1 == Confirm(w2, now, id, c, refuse).1
    ensures SameWorld(Confirm(w1, now, id, c, refuse).0, Confirm(w2, now, id, c, refuse).0)
  {
    hide Persist, AfterConfirm, ConfirmAnswer, DurableSequence;
    if id in w1.gate.requests {
      SameConfirm(w1, w2, now, id, c);
      SamePersist(w1, AfterConfirm(w1.gate, now, id, c), w2, AfterConfirm(w2.gate, now, id, c), id, refuse);
    } else {
      assert w1.gate.audit[|w1.gate.audit|..] == [] && w2.gate.audit[|w2.gate.audit|..] == [];
      SamePersist(w1, w1.gate, w2, w2.gate, id, refuse);
    }
  }

  lemma SameStepWithdraw(w1: World, w2: World, now: Time, id: string, actor: string, confirmationID: string,
                         reason: string, refuse: bool)
    requires SameWorld(w1, w2) && id in w1.gate.requests
    ensures SameResult(Persist(w1, Withdraw(w1.gate, now, id, actor, confirmationID, reason), id, refuse),
                       Persist(w2, Withdraw(w2.gate, now, id, actor, confirmationID, reason), id, refuse))
  {
    hide Persist, DurableSequence, Withdraw;
    SameWithdraw(w1, w2, now, id, actor, confirmationID, reason);
    SamePersist(w1, Withdraw(w1.gate, now, id, actor, confirmationID, reason),
                w2, Withdraw(w2.gate, now, id, actor, confirmationID, reason), id, refuse);
  }

  lemma SameStep(w1: World, w2: World, op: Op)
    requires SameWorld(w1, w2)
    ensures Step(w1, op).1 == Step(w2, op).1
    ensures SameWorld(Step(w1, op).0, Step(w2, op).0)
  {
    hide Submit, Confirm, Persist, Withdraw, ValidateRecord, DurableSequence;
    match op
    case SubmitOp(now, raw, refuse) => SameStepSubmit(w1, w2, now, raw, refuse);
    case ConfirmOp(now, id, c, refuse) => SameStepConfirm(w1, w2, now, id, c, refuse);
    case RevokeOp(now, id, actor, reason, refuse) =>
      assert RevokeChecks(w1.gate, id, actor, reason) == RevokeChecks(w2.gate, id, actor, reason);
      if RevokeChecks(w1.gate, id, actor, reason).Pass? {
        SameStepWithdraw(w1, w2, now, id, actor, "", reason, refuse);
      }
    case ConsumeOp(now, id, scope, intent, refuse) =>
      assert ConsumeChecks(w1.gate, now, id, scope, intent) == ConsumeChecks(w2.gate, now, id, scope, intent);
      if ConsumeChecks(w1.gate, now, id, scope, intent).Pass? {
        var c := w1.gate.requests[id].confirmation;
        SameStepWithdraw(w1, w2, now, id, c.actor, c.confirmationID, CONSUMED_REASON, refuse);
      }
  }

  lemma {:induction false} SameRun(w1: World, w2: World, ops: seq<Op>)
    requires SameWorld(w1, w2)
    ensures SameWorld(After(w1, ops), After(w2, ops))
    ensures forall i: nat | i < |ops| :: AnswerAt(w1, ops, i) == AnswerAt(w2, ops, i)
  {
    hide SameWorld, Step;
    if ops != [] {
      var n := |ops| - 1;
      SameRun(w1, w2, ops[..n]);
      SameStep(After(w1, ops[..n]), After(w2, ops[..n]), ops[n]);
      forall i: nat | i < |ops|
        ensures AnswerAt(w1, ops, i) == AnswerAt(w2, ops, i)
      {
        if i < n {
          assert ops[..n][..i] == ops[..i];
          assert AnswerAt(w1, ops[..n], i) == AnswerAt(w2, ops[..n], i);
        }
      }
    }
  }

  /** Crash at any point of any run, restore every request from the ledger in any order:
      the restored gate gives the answers the original would have given to every later run. */
  lemma RestartIsInvisible(epoch: nat, before: seq<Op>, ids: seq<string>, later: seq<Op>)
    requires Timed(0, before)
    requires Distinct(ids) && Elements(ids) == After(Start(epoch, true), before).gate.requests.Keys
    ensures var w := After(Start(epoch, true), before);
      && w.ledger.Some? && RestoreAll(NewGate(epoch), w.ledger.value, ids).Ok?
      && var restored := World(RestoreAll(NewGate(epoch), w.ledger.value, ids).value, w.ledger);
         && Inv(restored, ClockAfter(0, before))
         && After(restored, later).ledger == After(w, later).ledger
         && forall i: nat | i < |later| :: AnswerAt(restored, later, i) == AnswerAt(w, later, i)
  {
    hide Inv, RestoreAll, After, AnswerAt, SameFace;
    var w := After(Start(epoch, true), before);
    StartIsGood(epoch, true);
    RunKeepsInv(Start(epoch, true), before, 0);
    LedgerStaysBound(Start(epoch, true), before);
    EpochIsFixed(Start(epoch, true), before);
    RestartSucceeds(w, ClockAfter(0, before), ids);
    var restored := World(RestoreAll(NewGate(epoch), w.ledger.value, ids).value, w.ledger);
    SameRun(restored, w, later);
  }

  lemma EpochIsFixed(w: World, ops: seq<Op>)
    ensures After(w, ops).gate.policyEpoch == w.gate.policyEpoch
  {
    RunGrows(w, ops, 0, |ops|);
    assert ops[..|ops|] == ops && ops[..0] == [];
    hide Step;
  }
}
