/** The adapter also does what it is for: from any state in which a destructive request waits and nothing
    stands in its way, the two-click flow of a proper approver ends with the request executing. */
module ToolAdapterProgress {
  import opened Wrappers
  import opened ApprovalTypes
  import opened ApprovalRules
  import opened ToolStore
  import opened ToolAdapter
  import opened ToolAdapterGate
  import opened ToolAdapterSafety
  import opened ToolAdapterTheorems
  import opened GateProgress
  import G = ApprovalGate
  import I = GateInvariant
  import M = GateMoves
  import GS = GateSafety
  import S = ToolStoreSafety

  /** One request, its approver, and what they will send. */
  datatype Plan = Plan(t: nat, id: string, request: ToolRequest, approver: Actor, tag: string, newID: string,
                       proof: Proof, args: string, preview: string)

  ghost predicate Sound(p: Plan) {
    var r := p.request;
    && r.status == Waiting && r.sensitivity == Destructive && r.expiresAt != 0
    && ValidIdentifier(r.requester.subject) && ValidIdentifier(r.requester.sessionID)
    && ValidIdentifier(p.approver.subject) && ValidIdentifier(p.approver.sessionID)
    && p.approver.subject != r.requester.subject && p.approver.sessionID != r.requester.sessionID
    && ValidIdentifier(p.id) && ValidIdentifier(ToolScope(r.toolName)) && ValidIdentifier(p.newID)
    && p.tag != "" && NormalizeLanguage(p.tag) == Some(p.tag) && ValidProof(p.proof)
    && r.argsDigest == ArgsSum(r.salt, p.args) && S.PreviewMatches(r, p.preview)
  }

  ghost predicate Stored(a: Adapter, p: Plan) {
    p.id in a.history.store.requests && a.history.store.requests[p.id] == p.request
  }

  ghost predicate Affordable(a: Adapter, p: Plan) {
    BudgetKey(p.approver) !in a.budgets && |a.budgets| < MAX_BUDGETS && a.verifier
  }

  /** The request waits and the gate has not heard of it. */
  ghost predicate Askable(a: Adapter, p: Plan) {
    && Sound(p) && Inv(a) && a.locked.None? && p.t !in a.flights && Stored(a, p) && Affordable(a, p)
    && a.clock + WARNING_DELAY < p.request.expiresAt <= a.clock + MAX_APPROVAL_TTL
    && p.id !in a.world.gate.requests && a.epoch == a.world.gate.policyEpoch
    && (p.id in a.bindings ==> BindingFits(a.bindings[p.id], p.request))
    && p.newID !in a.world.gate.usedIDs && p.newID !in a.world.gate.owners
  }

  function ClickInput(p: Plan, third: bool): Input { Input(true, third, PhraseOf(p.tag)) }

  /** What the gate is asked for a click. */
  ghost function Click(a: Adapter, p: Plan, third: bool): Confirmation
    requires p.id in a.challenges && p.id in a.world.gate.requests
  {
    GateConfirmation(a.challenges[p.id], p.approver, ClickInput(p, third), p.proof, a.epoch,
                     a.world.gate.requests[p.id].request.nonce)
  }

  /** The challenge is open and the next click is proper. */
  ghost predicate Clicking(a: Adapter, p: Plan, third: bool) {
    && Sound(p) && Inv(a) && a.locked.None? && Stored(a, p)
    && p.id in a.challenges && p.id in a.world.gate.requests
    && var c, r := a.challenges[p.id], a.world.gate.requests[p.id];
       && c.approver == p.approver && c.phrase == PhraseOf(p.tag) && c.warningStartedAt == r.submittedAt
       && r.expiresAt == p.request.expiresAt && r.id == p.id && Proper(a.world.gate, p.id, Click(a, p, third))
       && if third then r.confirmation == Noted(r.request, Click(a, p, false)) else r.confirmation.confirmationID == ""
  }

  ghost predicate Ripe(a: Adapter, p: Plan) {
    && p.id in a.challenges && a.challenges[p.id].warningStartedAt + WARNING_DELAY <= a.clock < p.request.expiresAt
  }

  // ----- opening

  lemma OpeningAdmitted(g: G.Gate, p: Plan, f: Flight, b: Binding, epoch: nat)
    requires Sound(p) && f.Opening? && f.id == p.id && f.request == p.request && f.language == p.tag
    requires f.now < p.request.expiresAt <= f.now + MAX_APPROVAL_TTL && epoch == g.policyEpoch && p.id !in g.requests
    requires BindingFits(b, p.request) && b.scope == ToolScope(b.tool)
    ensures var admitted := G.AdmitRequest(g, OpeningRequest(f, b, epoch));
      admitted.Ok? && var req := admitted.value;
      && req.policyEpoch == epoch && req.language == p.tag && req.workflowDigest == "" && !EmptyToken(req.nonce)
      && req.id == p.id && req.actor == p.request.requester.subject && req.risk == High && !req.preApproved
      && req.sessionID == p.request.requester.sessionID && req.scope == b.scope && req.intentDigest == b.intent
      && req.ttl == p.request.expiresAt - f.now
  {
    hide NormalizeLanguage, ValidOpaque, ToolScope, SensitiveScope;
    assert ValidOpaque("") by { EmptyIsOpaque(); }
  }

  lemma EmptyIsOpaque()
    ensures ValidOpaque("")
  {
  }

  lemma WillingSubmit(w: G.World, now: Time, raw: Request, clock: Time)
    requires I.Inv(w, clock) && 0 < now <= clock && G.AdmitRequest(w.gate, raw).Ok?
    requires var req := G.AdmitRequest(w.gate, raw).value; ValidOpaque(req.actor) && !G.AutoApproved(req)
    ensures G.Submit(w, now, raw, false).1.Ok?
    ensures var g := G.Submit(w, now, raw, false).0.gate;
      g.usedIDs == w.gate.usedIDs && g.owners == w.gate.owners && g.policyEpoch == w.gate.policyEpoch
  {
    hide GS.Moves, I.Mirrors, ValidateRequest, NormalizeRequest, I.GateOK, G.Persist, G.AdmitRequest, ValidOpaque;
    var req := G.AdmitRequest(w.gate, raw).value;
    M.SubmitMoves(w.gate, now, req, clock);
    SubmitLogsActor(w.gate, now, req);
    GS.WrittenMove(w, G.AfterSubmit(w.gate, now, req), req.id, M.SubmitEvents(w.gate, now, req), false, clock, clock);
    NoLedger(w, G.AfterSubmit(w.gate, now, req), req.id);
  }

  lemma SubmitLogsActor(g: G.Gate, now: Time, req: Request)
    requires ValidateRequest(req).Pass? && !G.AutoApproved(req)
    ensures var events := M.SubmitEvents(g, now, req); |events| == 1 && events[0].actor == req.actor
    ensures var g' := G.AfterSubmit(g, now, req);
      g'.usedIDs == g.usedIDs && g'.owners == g.owners && g'.policyEpoch == g.policyEpoch
  {
    hide ValidateRequest;
  }

  lemma OpenReadContinues(a: Adapter, p: Plan)
    requires Askable(a, p)
    ensures var f := Asked(p.id, p.request, p.approver, p.tag);
      OpenRead(a, p.t, p.id, p.approver, p.tag) == (a.(flights := a.flights[p.t := f]), Continues)
  {
    hide Inv, NormalizeLanguage, ValidOpaque, ToolScope, BindingFits;
  }

  lemma OpenClockContinues(a: Adapter, a1: Adapter, p: Plan)
    requires Askable(a, p) && a1 == a.(flights := a.flights[p.t := Asked(p.id, p.request, p.approver, p.tag)])
    ensures var f := Opening(p.id, p.request, p.approver, p.tag, a.clock);
      OpenClock(a1, p.t) == (a.(flights := a.flights[p.t := f]), Continues)
  {
    hide Sound, Inv, BindingFits;
    assert a.flights[p.t := Asked(p.id, p.request, p.approver, p.tag)][p.t := Opening(p.id, p.request, p.approver, p.tag, a.clock)]
        == a.flights[p.t := Opening(p.id, p.request, p.approver, p.tag, a.clock)];
  }

  /** The state after the locked part of opening, from the flight a1 holds. */
  lemma OpenContinues(a: Adapter, a1: Adapter, p: Plan)
    requires Askable(a, p) && Inv(a1)
    requires a1 == a.(flights := a.flights[p.t := Opening(p.id, p.request, p.approver, p.tag, a.clock)])
    ensures var a' := Open(a1, p.t, p.newID, false).0;
      && Clicking(a', p, false) && p.t !in a'.flights && Affordable(a', p) && a'.clock == a.clock
      && a'.challenges[p.id].warningStartedAt == a.clock && Idle(a'.challenges[p.id])
  {
    hide Sound, Inv, OpeningBinding, BindingFits, G.Submit, OpeningRequest, Open, Proper, GateConfirmation, PhraseOf, ToolScope;
    var f := a1.flights[p.t];
    var b := OpeningBinding(a1, f);
    NoChallenge(a, p.id);
    OpeningBindingFits(a, a1, p);
    OpenKeepsInv(a1, p.t, p.newID, false);
    SubmittedFor(a1, p, f, b);
    OpenIs(a1, p.t, p.newID);
  }

  lemma OpenIs(a: Adapter, t: nat, newID: string)
    requires t in a.flights && a.flights[t].Opening? && a.flights[t].id !in a.challenges
    requires BindingFits(OpeningBinding(a, a.flights[t]), a.flights[t].request)
    requires G.Submit(a.world, a.flights[t].now, OpeningRequest(a.flights[t], OpeningBinding(a, a.flights[t]), a.epoch), false).1.Ok?
    ensures var f, b := a.flights[t], OpeningBinding(a, a.flights[t]);
      var (w, submitted) := G.Submit(a.world, f.now, OpeningRequest(f, b, a.epoch), false);
      Open(a, t, newID, false).0 ==
      a.(flights := a.flights - {t}, bindings := a.bindings[f.id := b], world := w,
         challenges := a.challenges[f.id := Challenge(newID, f.now, submitted.value.expiresAt, f.language, PhraseOf(f.language),
                                                      1, true, f.actor, b.scope, b.intent, NO_PROOF, 0, 0, false)])
  {
    hide G.Submit, OpeningRequest, OpeningBinding, BindingFits, PhraseOf;
  }

  ghost predicate Idle(c: Challenge) { c.failures == 0 && !c.verifying && c.step == 1 }

  lemma NoChallenge(a: Adapter, id: string)
    requires Inv(a) && id !in a.world.gate.requests
    ensures id !in a.challenges
  {
    hide Inv;
    if id in a.challenges { OneChallenge(a, id); }
  }

  lemma OpeningBindingFits(a: Adapter, a1: Adapter, p: Plan)
    requires Askable(a, p) && a1.bindings == a.bindings && Inv(a1)
    ensures var b := OpeningBinding(a1, Opening(p.id, p.request, p.approver, p.tag, a.clock));
      BindingFits(b, p.request) && b.scope == ToolScope(b.tool)
  {
    assert Scopes(a1.bindings) by { hide I.Inv, S.Inv, Links, Covers, Scopes, AllTimely, AllGuarded, AllApart, Limits, Holds; }
    hide Inv, ToolScope, ToolIntent, NormalizeLanguage, ValidOpaque, ValidProof;
  }

  /** Submitting for an opening succeeds, and its first click would be proper. */
  lemma SubmittedFor(a: Adapter, p: Plan, f: Flight, b: Binding)
    requires Sound(p) && Inv(a) && f == Opening(p.id, p.request, p.approver, p.tag, a.clock)
    requires a.clock < p.request.expiresAt <= a.clock + MAX_APPROVAL_TTL
    requires p.id !in a.world.gate.requests && a.epoch == a.world.gate.policyEpoch
    requires p.newID !in a.world.gate.usedIDs && p.newID !in a.world.gate.owners
    requires BindingFits(b, p.request) && b.scope == ToolScope(b.tool)
    ensures var (w, submitted) := G.Submit(a.world, f.now, OpeningRequest(f, b, a.epoch), false);
      && submitted.Ok? && p.id in w.gate.requests && w.gate.requests[p.id] == submitted.value
      && submitted.value.submittedAt == a.clock && submitted.value.expiresAt == p.request.expiresAt
      && submitted.value.id == p.id && submitted.value.confirmation.confirmationID == ""
      && Proper(w.gate, p.id, GateConfirmation(
           Challenge(p.newID, a.clock, submitted.value.expiresAt, p.tag, PhraseOf(p.tag), 1, true, p.approver, b.scope,
                     b.intent, NO_PROOF, 0, 0, false),
           p.approver, ClickInput(p, false), p.proof, a.epoch, submitted.value.request.nonce))
  {
    assert I.Inv(a.world, a.clock) && 0 < a.clock by { hide I.Inv, S.Inv, Links, Covers, Scopes, AllTimely, AllGuarded, AllApart, Limits, Holds; }
    hide Inv, I.Inv, G.Submit, G.AdmitRequest, NormalizeLanguage, ExpectedPhrase, ValidOpaque, ToolScope, BindingFits,
      OpeningRequest, S.PreviewMatches, GateRole;
    OpeningAdmitted(a.world.gate, p, f, b, a.epoch);
    var raw := OpeningRequest(f, b, a.epoch);
    OpeningID(f, b, a.epoch);
    WillingSubmit(a.world, f.now, raw, a.clock);
    SubmitRecords(a.world, f.now, raw, false);
    PhraseIs(p.tag);
  }

  lemma OpeningID(f: Flight, b: Binding, epoch: nat)
    requires f.Opening?
    ensures OpeningRequest(f, b, epoch).id == f.id
  {
  }

  lemma PhraseIs(tag: string)
    requires NormalizeLanguage(tag).Some?
    ensures ExpectedPhrase(tag) == Some(PhraseOf(tag))
  {
    hide NormalizeLanguage;
  }

  // ----- clicking

  /** A challenge that asks the same question. */
  ghost predicate SameQuestion(c: Challenge, c': Challenge) {
    c' == c.(step := c'.step, needsThird := c'.needsThird, proof := c'.proof, proofExpiresAt := c'.proofExpiresAt,
             failures := c'.failures, verifying := c'.verifying)
  }

  lemma ClickingKept(a: Adapter, a': Adapter, p: Plan, third: bool)
    requires Clicking(a, p, third) && Inv(a') && a'.locked.None? && a'.epoch == a.epoch
    requires a'.world == a.world && a'.history == a.history
    requires p.id in a'.challenges && SameQuestion(a.challenges[p.id], a'.challenges[p.id])
    ensures Clicking(a', p, third)
  {
    hide Inv, Sound, Proper, GateRole;
    assert Click(a', p, third) == Click(a, p, third) && Click(a', p, false) == Click(a, p, false);
    hide Click;
  }

  lemma TickRipens(a: Adapter, p: Plan, now: Time)
    requires Clicking(a, p, false) && a.clock <= now < p.request.expiresAt
    requires a.challenges[p.id].warningStartedAt + WARNING_DELAY <= now
    ensures Clicking(a.(clock := now), p, false) && Ripe(a.(clock := now), p)
  {
    TickKeepsInv(a, now);
    ClickingKept(a, a.(clock := now), p, false);
  }

  lemma ClickIsAllowed(a: Adapter, p: Plan, third: bool)
    requires Clicking(a, p, third) && Ripe(a, p)
    ensures var r, c := a.world.gate.requests[p.id], a.challenges[p.id];
      && r.status == Pending && ApproverError(c, p.approver).None?
      && ConfirmError(r, c, ClickInput(p, third), a.clock).None?
      && InTime(r, Click(a, p, third), a.clock) && r.submittedAt > 0
  {
    hide Inv, Sound, NormalizeLanguage, ExpectedPhrase, ValidOpaque, PhraseOf;
    PositiveRecord(a, p.id);
  }

  lemma PositiveRecord(a: Adapter, id: string)
    requires Inv(a) && id in a.world.gate.requests
    ensures 0 < a.world.gate.requests[id].submittedAt <= a.clock
  {
    hide I.Inv, S.Inv, Links, Covers, Scopes, AllTimely, AllGuarded, AllApart, Limits, Holds;
    PositiveSubmission(a.world, a.clock, id);
    SubmittedBefore(a.world, a.clock, id);
  }

  /** The first click goes to the verifier. */
  lemma FirstConfirmStarts(a: Adapter, p: Plan)
    requires Clicking(a, p, false) && Ripe(a, p) && p.t !in a.flights && Affordable(a, p) && Idle(a.challenges[p.id])
    ensures var (a', reply) := ConfirmStart(a, p.t, p.id, p.approver, ClickInput(p, false), a.clock);
      && Clicking(a', p, false) && Ripe(a', p) && a'.clock == a.clock
      && p.t in a'.flights && a'.flights[p.t] == Verifying(p.id, p.approver, ClickInput(p, false), BudgetKey(p.approver), a.clock)
  {
    hide Sound, Inv, BudgetKey, Click, Noted, ConfirmStart, Verify, Pruned, Proper, PhraseOf;
    ConfirmStartKeepsInv(a, p.t, p.id, p.approver, ClickInput(p, false), a.clock);
    PruneShrinks(a.budgets, a.clock);
    PrunedKeys(a.budgets, a.clock);
    ConfirmGoesOn(a, p, false);
    StartsVerifying(a.(budgets := Pruned(a.budgets, a.clock)), p);
    ClickingKept(a, ConfirmStart(a, p.t, p.id, p.approver, ClickInput(p, false), a.clock).0, p, false);
  }

  lemma PrunedKeys(budgets: map<string, Budget>, now: Time)
    ensures Pruned(budgets, now).Keys <= budgets.Keys
  {
  }

  lemma ConfirmGoesOn(a: Adapter, p: Plan, third: bool)
    requires Clicking(a, p, third) && Ripe(a, p)
    ensures ConfirmStart(a, p.t, p.id, p.approver, ClickInput(p, third), a.clock)
         == Verify(a.(budgets := Pruned(a.budgets, a.clock)), p.t, p.id, p.approver, ClickInput(p, third))
  {
    hide Sound, Inv, Click, Noted, Verify, Pruned, Proper, PhraseOf, ConfirmError, ApproverError, InTime, ClickInput;
    ClickIsAllowed(a, p, third);
  }

  lemma StartsVerifying(a: Adapter, p: Plan)
    requires p.id in a.challenges && Affordable(a, p) && Idle(a.challenges[p.id])
    ensures var c, key := a.challenges[p.id], BudgetKey(p.approver);
      var a' := Verify(a, p.t, p.id, p.approver, ClickInput(p, false)).0;
      && a'.flights == a.flights[p.t := Verifying(p.id, p.approver, ClickInput(p, false), key, a.clock)]
      && a'.challenges == a.challenges[p.id := c.(verifying := true)]
      && a'.world == a.world && a'.history == a.history && a'.epoch == a.epoch && a'.locked == a.locked && a'.clock == a.clock
  {
    hide BudgetKey, ValidProof;
  }

  /** The verifier accepts. */
  lemma VerdictProves(a: Adapter, p: Plan)
    requires Clicking(a, p, false) && Ripe(a, p) && p.t in a.flights && a.flights[p.t].Verifying?
    requires a.flights[p.t].id == p.id && a.flights[p.t].actor == p.approver && a.flights[p.t].input == ClickInput(p, false)
    ensures var a' := Verdict(a, p.t, Some(p.proof)).0;
      && Clicking(a', p, false) && Ripe(a', p) && a'.clock == a.clock
      && p.t in a'.flights && a'.flights[p.t] == Proven(p.id, p.approver, ClickInput(p, false), p.proof, a.clock)
  {
    hide Sound, Proper, Inv, ValidProof, BudgetAt, Click, Noted, PhraseOf, ClickInput;
    SoundBasics(p);
    VerdictKeepsInv(a, p.t, Some(p.proof));
    ClickingKept(a, Verdict(a, p.t, Some(p.proof)).0, p, false);
  }

  ghost predicate Clicked(a: Adapter, p: Plan, third: bool) {
    p.t in a.flights && a.flights[p.t].Proven?
    && a.flights[p.t] == Proven(p.id, p.approver, ClickInput(p, third), p.proof, a.flights[p.t].since)
    && a.flights[p.t].since <= a.clock
  }

  /** Both clicks reach the gate. */
  lemma ReachesGate(a: Adapter, p: Plan, third: bool)
    requires Clicking(a, p, third) && Ripe(a, p) && Clicked(a, p, third)
    ensures ConfirmEnd(a, p.t, a.clock, false) == AskGate(a.(flights := a.flights - {p.t}), a.flights[p.t], a.clock, false)
    ensures Inv(ConfirmEnd(a, p.t, a.clock, false).0)
  {
    hide Sound, Proper, Inv, AskGate, ApproverError, ConfirmError, Click, Noted, InTime, PhraseOf, AlreadyApproved, ClickInput;
    ClickIsAllowed(a, p, third);
    ConfirmEndKeepsInv(a, p.t, a.clock, false);
  }

  /** The first click leaves a checkpoint and a cached proof. */
  lemma FirstClickLands(a: Adapter, p: Plan)
    requires Clicking(a, p, false) && Ripe(a, p) && Clicked(a, p, false)
    ensures var (a', reply) := ConfirmEnd(a, p.t, a.clock, false);
      && reply == GateSays(ThirdConfirmation) && Clicking(a', p, true) && Ripe(a', p) && p.t !in a'.flights && a'.clock == a.clock
      && a'.challenges[p.id].step == 2 && a'.challenges[p.id].proof == p.proof
      && a'.challenges[p.id].proofExpiresAt == a.clock + PROOF_TTL
  {
    ReachesGate(a, p, false);
    ClickIsAllowed(a, p, false);
    GateWorld(a);
    var k := Click(a, p, false);
    hide Sound, Inv, I.Inv, ApproverError, ConfirmError, InTime, ConfirmEnd, Proper, Noted, G.Confirm;
    FirstClick(a.world, p.id, k, a.clock, a.clock);
    FirstAnswered(a.(flights := a.flights - {p.t}), a.flights[p.t], a.clock);
    var a' := ConfirmEnd(a, p.t, a.clock, false).0;
    assert Click(a', p, true) == k.(thirdConfirmation := true) && Click(a', p, false) == k;
    hide Click, AskGate, GateConfirmation;
  }

  lemma GateWorld(a: Adapter)
    requires Inv(a)
    ensures I.Inv(a.world, a.clock) && 0 < a.clock
  {
    hide I.Inv, S.Inv, Links, Covers, Scopes, AllTimely, AllGuarded, AllApart, Limits, Holds;
  }

  /** What the gate is asked on behalf of a flight. */
  ghost function Question(a: Adapter, f: Flight): Confirmation
    requires f.Proven? && f.id in a.challenges && f.id in a.world.gate.requests
  {
    GateConfirmation(a.challenges[f.id], f.actor, f.input, f.proof, a.epoch, a.world.gate.requests[f.id].request.nonce)
  }

  lemma FirstAnswered(a: Adapter, f: Flight, now: Time)
    requires f.Proven? && f.id in a.challenges && f.id in a.world.gate.requests
    requires G.Confirm(a.world, now, f.id, Question(a, f), false).1 == Err(ThirdConfirmation)
    ensures var c := a.challenges[f.id];
      AskGate(a, f, now, false) ==
      (a.(world := G.Confirm(a.world, now, f.id, Question(a, f), false).0,
          challenges := a.challenges[f.id := c.(step := 2, needsThird := true, proof := f.proof, proofExpiresAt := now + PROOF_TTL)]),
       GateSays(ThirdConfirmation))
  {
    hide G.Confirm, GateConfirmation;
  }

  /** The second click takes the cached proof. */
  lemma SecondConfirmStarts(a: Adapter, p: Plan)
    requires Clicking(a, p, true) && Ripe(a, p) && p.t !in a.flights
    requires var c := a.challenges[p.id]; c.step == 2 && c.proof == p.proof && a.clock < c.proofExpiresAt
    ensures var a' := ConfirmStart(a, p.t, p.id, p.approver, ClickInput(p, true), a.clock).0;
      Clicking(a', p, true) && Ripe(a', p) && Clicked(a', p, true) && a'.clock == a.clock
  {
    hide Sound, Inv, Click, Noted, ConfirmStart, Verify, Pruned, Proper, PhraseOf, ValidProof, ClickInput;
    SoundBasics(p);
    ConfirmStartKeepsInv(a, p.t, p.id, p.approver, ClickInput(p, true), a.clock);
    ConfirmGoesOn(a, p, true);
    TakesCached(a.(budgets := Pruned(a.budgets, a.clock)), p);
    ClickingKept(a, ConfirmStart(a, p.t, p.id, p.approver, ClickInput(p, true), a.clock).0, p, true);
  }

  lemma TakesCached(a: Adapter, p: Plan)
    requires p.id in a.challenges && ValidProof(p.proof)
    requires var c := a.challenges[p.id]; c.step == 2 && c.proof == p.proof && a.clock < c.proofExpiresAt
    ensures Verify(a, p.t, p.id, p.approver, ClickInput(p, true)).0
         == a.(flights := a.flights[p.t := Proven(p.id, p.approver, ClickInput(p, true), p.proof, a.clock)])
  {
    hide ValidProof, BudgetError, BudgetFor, ClickInput;
  }

  lemma SoundBasics(p: Plan)
    requires Sound(p)
    ensures p.request.status == Waiting && p.request.sensitivity == Destructive && ValidProof(p.proof)
  {
    hide NormalizeLanguage, ValidOpaque, ToolScope, S.PreviewMatches, ValidProof;
  }

  /** The gate has approved and the store is to follow. */
  ghost predicate GateCleared(a: Adapter, p: Plan) {
    && Sound(p) && Inv(a) && Cleared(p.id, a.challenges, a.world.gate.requests)
    && a.challenges[p.id].approver == p.approver && a.clock < p.request.expiresAt
    && a.world.gate.requests[p.id].expiresAt == p.request.expiresAt
  }

  lemma SecondClickLands(a: Adapter, p: Plan)
    requires Clicking(a, p, true) && Ripe(a, p) && Clicked(a, p, true)
    ensures var a' := ConfirmEnd(a, p.t, a.clock, false).0;
      GateCleared(a', p) && Stored(a', p) && a'.clock == a.clock && a'.locked == Some(ApproveNext(p.id, p.approver, Return))
  {
    hide Sound, Inv, I.Inv, InTime, ConfirmEnd, ApproverError, ConfirmError, PhraseOf, AskGate, CommitFits, G.Confirm, G.CommitFor,
      Proper;
    ReachesGate(a, p, true);
    ClickIsAllowed(a, p, true);
    GateWorld(a);
    var k := Click(a, p, true);
    assert k.(thirdConfirmation := false) == Click(a, p, false);
    hide Noted, Click;
    SecondClick(a.world, p.id, k, a.clock, a.clock);
    SameAsAsked(a, p, true);
    SecondAnswered(a.(flights := a.flights - {p.t}), a.flights[p.t], a.clock);
    ClickCommitFits(a, p, G.Confirm(a.world, a.clock, p.id, k, false).0.gate.requests[p.id]);
  }

  lemma SameAsAsked(a: Adapter, p: Plan, third: bool)
    requires Clicking(a, p, third) && Clicked(a, p, third)
    ensures Question(a.(flights := a.flights - {p.t}), a.flights[p.t]) == Click(a, p, third)
  {
    hide Sound, Inv, Proper, Noted, GateConfirmation;
  }

  lemma ClickCommitFits(a: Adapter, p: Plan, r: Record)
    requires Clicking(a, p, true) && r.commit == Some(G.CommitFor(a.world.gate.requests[p.id], a.clock, Click(a, p, true)))
    requires r.id == p.id && r.request == a.world.gate.requests[p.id].request && r.expiresAt == a.world.gate.requests[p.id].expiresAt
    ensures forall c | SameQuestion(a.challenges[p.id], c) :: CommitFits(r, c)
  {
    hide Sound, Inv, Noted, NormalizeLanguage, ExpectedPhrase, ValidOpaque, PhraseOf;
  }

  lemma SecondAnswered(a: Adapter, f: Flight, now: Time)
    requires f.Proven? && f.id in a.challenges && f.id in a.world.gate.requests
    requires G.Confirm(a.world, now, f.id, Question(a, f), false).1.Ok?
    ensures var c := a.challenges[f.id];
      AskGate(a, f, now, false).0 ==
      a.(world := G.Confirm(a.world, now, f.id, Question(a, f), false).0, locked := Some(ApproveNext(f.id, c.approver, Return)),
         challenges := a.challenges[f.id := c.(step := 3, needsThird := false, proof := NO_PROOF, proofExpiresAt := 0)])
  {
    hide G.Confirm, GateConfirmation;
  }

  // ----- executing

  ghost predicate GrantedFor(a: Adapter, p: Plan) {
    && p.id in a.history.store.requests && S.SameIntent(a.history.store.requests[p.id], p.request)
    && a.history.store.requests[p.id].status == Granted
  }

  lemma StoreApproves(a: Adapter, p: Plan)
    requires GateCleared(a, p) && Stored(a, p) && a.locked == Some(ApproveNext(p.id, p.approver, Return))
    ensures var a' := HeldStep(a, Written).0; GateCleared(a', p) && GrantedFor(a', p) && a'.clock == a.clock && a'.locked.None?
  {
    hide Sound, Inv, CommitFits, HeldStep;
    SoundBasics(p);
    HeldKeepsInv(a, Written);
    ApprovedHeld(a, p);
  }

  lemma ApprovedHeld(a: Adapter, p: Plan)
    requires Stored(a, p) && a.locked == Some(ApproveNext(p.id, p.approver, Return)) && p.request.status == Waiting
    requires a.clock < p.request.expiresAt
    ensures var a' := HeldStep(a, Written).0;
      GrantedFor(a', p) && a' == a.(history := a'.history, locked := None)
  {
  }

  lemma ExecutionStarts(a: Adapter, p: Plan)
    requires GateCleared(a, p) && GrantedFor(a, p) && a.locked.None?
    ensures var goal := ThenBegin(p.request.toolName, p.args, p.preview, p.request.requester);
      var a' := ExecuteStart(a, p.id, p.request.toolName, p.args, p.preview, p.request.requester, a.clock).0;
      && a' == a.(locked := Some(ApproveNext(p.id, p.approver, goal))) && GateCleared(a', p) && GrantedFor(a', p)
  {
    hide Sound, Inv;
    ExecuteStartKeepsInv(a, p.id, p.request.toolName, p.args, p.preview, p.request.requester, a.clock);
  }

  lemma StoreApprovesAgain(a: Adapter, p: Plan)
    requires var goal := ThenBegin(p.request.toolName, p.args, p.preview, p.request.requester);
      GateCleared(a, p) && GrantedFor(a, p) && a.locked == Some(ApproveNext(p.id, p.approver, goal))
    ensures var a' := HeldStep(a, Written).0;
      && GateCleared(a', p) && GrantedFor(a', p) && a'.clock == a.clock
      && a'.locked == Some(BeginNext(p.id, p.request.toolName, p.args, p.preview, p.request.requester))
  {
    hide Sound, Inv, CommitFits;
    HeldKeepsInv(a, Written);
  }

  lemma StoreBegins(a: Adapter, p: Plan)
    requires GateCleared(a, p) && GrantedFor(a, p)
    requires a.locked == Some(BeginNext(p.id, p.request.toolName, p.args, p.preview, p.request.requester))
    ensures var (a', reply) := HeldStep(a, Written);
      && p.id in a'.history.store.requests && a'.history.store.requests[p.id].status == Executing
      && reply == StoreSays(Done(a'.history.store.requests[p.id]))
  {
    hide Inv, CommitFits, NormalizeLanguage, ValidOpaque, PreviewDigest;
  }

  // ----- the whole flow

  /** b can be reached from a by some steps. */
  ghost predicate Reaches(a: Adapter, b: Adapter) {
    exists states: seq<Adapter>, ops: seq<Op> :: IsPath(states, ops) && states[0] == a && states[|ops|] == b
  }

  ghost predicate IsPath(states: seq<Adapter>, ops: seq<Op>) {
    && |states| == |ops| + 1
    && forall i | 0 <= i < |ops| :: Enabled(states[i], ops[i]) && states[i + 1] == Step(states[i], ops[i]).0
  }

  lemma ReachesItself(a: Adapter)
    ensures Reaches(a, a)
  {
    assert IsPath([a], []);
  }

  lemma ReachesNext(a: Adapter, b: Adapter, op: Op)
    requires Reaches(a, b) && Enabled(b, op)
    ensures Reaches(a, Step(b, op).0)
  {
    hide Enabled, Step;
    var states: seq<Adapter>, ops: seq<Op> :| IsPath(states, ops) && states[0] == a && states[|ops|] == b;
    assert IsPath(states + [Step(b, op).0], ops + [op]);
  }

  lemma ReachesConfirmStart(a: Adapter, b: Adapter, t: nat, id: string, actor: Actor, input: Input)
    requires Reaches(a, b) && b.locked.None? && t !in b.flights
    ensures Reaches(a, ConfirmStart(b, t, id, actor, input, b.clock).0)
  {
    hide Reaches, ConfirmStart;
    ReachesNext(a, b, ConfirmStartOp(t, id, actor, input, b.clock));
  }

  lemma ReachesVerdict(a: Adapter, b: Adapter, t: nat, proof: Proof)
    requires Reaches(a, b) && b.locked.None? && t in b.flights && b.flights[t].Verifying?
    ensures Reaches(a, Verdict(b, t, Some(proof)).0)
  {
    hide Reaches, Verdict;
    ReachesNext(a, b, VerdictOp(t, Some(proof)));
  }

  lemma ReachesConfirmEnd(a: Adapter, b: Adapter, t: nat)
    requires Reaches(a, b) && b.locked.None? && t in b.flights && b.flights[t].Proven? && b.flights[t].since <= b.clock
    ensures Reaches(a, ConfirmEnd(b, t, b.clock, false).0)
  {
    hide Reaches, ConfirmEnd;
    ReachesNext(a, b, ConfirmEndOp(t, b.clock, false));
  }

  lemma ReachesHeld(a: Adapter, b: Adapter)
    requires Reaches(a, b) && b.locked.Some?
    ensures Reaches(a, HeldStep(b, Written).0)
  {
    hide Reaches, HeldStep;
    ReachesNext(a, b, HeldOp(Written));
  }

  lemma Opens(a: Adapter, p: Plan) returns (b: Adapter)
    requires Askable(a, p)
    ensures Reaches(a, b) && Inv(b)
    ensures b == a.(flights := a.flights[p.t := Opening(p.id, p.request, p.approver, p.tag, a.clock)])
  {
    hide Sound, Inv, Reaches, OpenRead, OpenClock, Affordable, Stored;
    ReachesItself(a);
    ReachesNext(a, a, OpenReadOp(p.t, p.id, p.approver, p.tag));
    OpenReadContinues(a, p);
    OpenReadKeepsInv(a, p.t, p.id, p.approver, p.tag);
    var a1 := OpenRead(a, p.t, p.id, p.approver, p.tag).0;
    ReachesNext(a, a1, OpenClockOp(p.t));
    OpenClockContinues(a, a1, p);
    OpenClockKeepsInv(a1, p.t);
    b := OpenClock(a1, p.t).0;
  }

  lemma OpensAndRipens(a: Adapter, p: Plan) returns (b: Adapter)
    requires Askable(a, p)
    ensures Reaches(a, b) && Clicking(b, p, false) && Ripe(b, p) && p.t !in b.flights && Affordable(b, p)
    ensures Idle(b.challenges[p.id])
  {
    hide Sound, Inv, Clicking, Reaches, OpenRead, OpenClock, Open, Affordable, Idle, Stored;
    var a1 := Opens(a, p);
    ReachesNext(a, a1, OpenOp(p.t, p.newID, false));
    OpenContinues(a, a1, p);
    var a2 := Open(a1, p.t, p.newID, false).0;
    ClickingParts(a2, p, false);
    TickRipens(a2, p, a2.clock + WARNING_DELAY);
    ReachesNext(a, a2, TickOp(a2.clock + WARNING_DELAY));
    b := a2.(clock := a2.clock + WARNING_DELAY);
    AffordableLater(a2, p, b.clock);
  }

  lemma ClickingParts(a: Adapter, p: Plan, third: bool)
    requires Clicking(a, p, third)
    ensures Sound(p) && Inv(a) && a.locked.None? && p.id in a.challenges && p.id in a.world.gate.requests
  {
  }

  lemma AffordableLater(a: Adapter, p: Plan, now: Time)
    requires Affordable(a, p)
    ensures Affordable(a.(clock := now), p)
  {
  }

  lemma ClicksOnce(a: Adapter, b: Adapter, p: Plan) returns (c: Adapter)
    requires Reaches(a, b) && Clicking(b, p, false) && Ripe(b, p) && p.t !in b.flights && Affordable(b, p)
    requires Idle(b.challenges[p.id])
    ensures Reaches(a, c) && Clicking(c, p, true) && Ripe(c, p) && p.t !in c.flights
    ensures var k := c.challenges[p.id]; k.step == 2 && k.proof == p.proof && c.clock < k.proofExpiresAt
  {
    hide Sound, Inv, Clicking, Ripe, Reaches, ConfirmStart, Verdict, ConfirmEnd, Affordable, Idle, ClickInput;
    ClickingParts(b, p, false);
    ReachesConfirmStart(a, b, p.t, p.id, p.approver, ClickInput(p, false));
    FirstConfirmStarts(b, p);
    var b1 := ConfirmStart(b, p.t, p.id, p.approver, ClickInput(p, false), b.clock).0;
    ClickingParts(b1, p, false);
    ReachesVerdict(a, b1, p.t, p.proof);
    VerdictProves(b1, p);
    var b2 := Verdict(b1, p.t, Some(p.proof)).0;
    ClickingParts(b2, p, false);
    ReachesConfirmEnd(a, b2, p.t);
    FirstClickLands(b2, p);
    c := ConfirmEnd(b2, p.t, b2.clock, false).0;
    ClickingParts(c, p, true);
  }

  lemma ClicksTwice(a: Adapter, b: Adapter, p: Plan) returns (c: Adapter)
    requires Reaches(a, b) && Clicking(b, p, true) && Ripe(b, p) && p.t !in b.flights
    requires var k := b.challenges[p.id]; k.step == 2 && k.proof == p.proof && b.clock < k.proofExpiresAt
    ensures Reaches(a, c) && GateCleared(c, p) && GrantedFor(c, p) && c.locked.None?
  {
    hide Sound, Inv, Clicking, Ripe, Reaches, ConfirmStart, ConfirmEnd, GateCleared, GrantedFor, Stored, HeldStep, ClickInput;
    ClickingParts(b, p, true);
    ReachesConfirmStart(a, b, p.t, p.id, p.approver, ClickInput(p, true));
    SecondConfirmStarts(b, p);
    var b1 := ConfirmStart(b, p.t, p.id, p.approver, ClickInput(p, true), b.clock).0;
    ClickingParts(b1, p, true);
    ReachesConfirmEnd(a, b1, p.t);
    SecondClickLands(b1, p);
    var b2 := ConfirmEnd(b1, p.t, b1.clock, false).0;
    ReachesHeld(a, b2);
    StoreApproves(b2, p);
    c := HeldStep(b2, Written).0;
  }

  /** A destructive request that waits, whose names are well formed, that the gate does not know and whose
      approver is somebody else with room for a credential check, can always be opened, confirmed twice
      after the warning, and executed by its requester. */
  lemma ProperRequestExecutes(a: Adapter, p: Plan) returns (b: Adapter)
    requires Askable(a, p)
    ensures Reaches(a, b) && p.id in b.history.store.requests && b.history.store.requests[p.id].status == Executing
  {
    hide Sound, Inv, Clicking, Ripe, Reaches, Affordable, Idle, Askable, GateCleared, GrantedFor, ExecuteStart, HeldStep;
    var a1 := OpensAndRipens(a, p);
    var a2 := ClicksOnce(a, a1, p);
    var a3 := ClicksTwice(a, a2, p);
    var r := p.request;
    ReachesNext(a, a3, ExecuteStartOp(p.id, r.toolName, p.args, p.preview, r.requester, a3.clock));
    ExecutionStarts(a3, p);
    var a4 := ExecuteStart(a3, p.id, r.toolName, p.args, p.preview, r.requester, a3.clock).0;
    ReachesHeld(a, a4);
    StoreApprovesAgain(a4, p);
    var a5 := HeldStep(a4, Written).0;
    ReachesHeld(a, a5);
    StoreBegins(a5, p);
    b := HeldStep(a5, Written).0;
  }

  /** A fresh system with a verifier set and the plan's request just created. */
  lemma CreatedIsAskable(a: Adapter, p: Plan) returns (b: Adapter)
    requires IsFresh(a) && Sound(p) && p.request.id == p.id && a.history.store.capacity > 0
    requires a.clock + WARNING_DELAY < p.request.expiresAt <= a.clock + MAX_APPROVAL_TTL
    ensures Reaches(a, b) && Askable(b, p)
  {
    hide Sound, Reaches, Inv, IsStart, IsFresh;
    SoundBasics(p);
    FreshIsStart(a);
    StartIsGood(a);
    ReachesItself(a);
    var call := S.CreateOp(p.request, map[], a.clock, Written);
    CreateAtStart(a, p, call);
    StepKeepsInv(a, StoreOp(call));
    ReachesNext(a, a, StoreOp(call));
    var a1 := Step(a, StoreOp(call)).0;
    hide S.Next, S.Call, S.Possible;
    StepKeepsInv(a1, VerifierOp(true));
    ReachesNext(a, a1, VerifierOp(true));
    b := Step(a1, VerifierOp(true)).0;
    hide Enabled, Step, BindingFits, BudgetKey;
  }

  /** Creating is possible at the start, and leaves everything but the store as it was. */
  lemma CreateAtStart(a: Adapter, p: Plan, call: S.Op)
    requires IsFresh(a) && p.request.status == Waiting && p.request.id == p.id && a.history.store.capacity > 0
    requires call == S.CreateOp(p.request, map[], a.clock, Written)
    ensures Enabled(a, StoreOp(call)) && Stored(Step(a, StoreOp(call)).0, p)
    ensures a.locked.None? && a.flights == map[] && a.bindings == map[] && a.budgets == map[] && a.world.gate.requests == map[]
    ensures a.epoch == a.world.gate.policyEpoch && a.world.gate.usedIDs == {} && a.world.gate.owners == map[]
  {
    EmptyMakesRoom(a.clock, a.history.store.capacity);
    hide MakesRoom;
  }

  lemma EmptyMakesRoom(now: Time, capacity: nat)
    requires capacity > 0
    ensures MakesRoom(map[], map[], now, 1, capacity)
  {
    hide Before;
    assert Live(map[], now) == map[];
  }

  /** From a fresh system: a run in which a destructive request is created, approved and executed. */
  lemma SomeRunExecutes(a: Adapter, p: Plan) returns (states: seq<Adapter>, ops: seq<Op>)
    requires IsFresh(a) && Sound(p) && p.request.id == p.id && a.history.store.capacity > 0
    requires a.clock + WARNING_DELAY < p.request.expiresAt <= a.clock + MAX_APPROVAL_TTL
    ensures IsRun(states, ops) && states[0] == a
    ensures var s := states[|ops|].history.store; p.id in s.requests && s.requests[p.id].status == Executing
  {
    hide Sound, Askable, IsStart, IsFresh, Enabled, Step;
    FreshIsStart(a);
    var b := CreatedIsAskable(a, p);
    var c := ProperRequestExecutes(b, p);
    ReachesTransitive(a, b, c);
    states, ops :| IsPath(states, ops) && states[0] == a && states[|ops|] == c;
  }

  lemma ReachesTransitive(a: Adapter, b: Adapter, c: Adapter)
    requires Reaches(a, b) && Reaches(b, c)
    ensures Reaches(a, c)
  {
    hide Enabled, Step;
    var s1: seq<Adapter>, o1: seq<Op> :| IsPath(s1, o1) && s1[0] == a && s1[|o1|] == b;
    var s2: seq<Adapter>, o2: seq<Op> :| IsPath(s2, o2) && s2[0] == b && s2[|o2|] == c;
    PathsJoin(s1, o1, s2, o2);
  }

  lemma PathsJoin(s1: seq<Adapter>, o1: seq<Op>, s2: seq<Adapter>, o2: seq<Op>)
    requires IsPath(s1, o1) && IsPath(s2, o2) && s1[|o1|] == s2[0]
    ensures IsPath(s1 + s2[1..], o1 + o2) && (s1 + s2[1..])[|o1 + o2|] == s2[|o2|]
  {
    hide Enabled, Step;
  }
}
