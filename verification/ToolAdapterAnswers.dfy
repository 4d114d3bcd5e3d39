/** What each section of the adapter answers and leaves, in terms of the state and its arguments. */
module ToolAdapterAnswers {
  import opened Wrappers
  import opened ApprovalTypes
  import opened ApprovalRules
  import opened ToolStore
  import opened ToolAdapter
  import opened ToolAdapterGate
  import opened ToolAdapterSafety
  import G = ApprovalGate
  import I = GateInvariant
  import Checks = GateChecks
  import Exact = GateAnswers
  import S = ToolStoreSafety
  import L = ToolStoreLifecycle
  import T = GateTheorems
  import F = GateFailures
  import M = GateMoves

  // ----- actors and commits

  lemma ActorIff(actor: Actor)
    ensures ActorError(actor).None? <==> ValidIdentifier(actor.subject) && ValidIdentifier(actor.sessionID)
  {
    hide ValidOpaque;
  }

  /** A commit that fits is the record's own with the challenge's confirmation, approver, scope and intent; only
      risk, lifetime, time of issue, workflow and language are not the adapter's to compare. */
  lemma FitsIff(r: Record, c: Challenge)
    ensures CommitFits(r, c) <==>
      r.commit.Some? &&
      var k := r.commit.value;
      k == Commit(r.id, c.confirmationID, c.approver.subject, c.scope, r.request.policyEpoch, k.risk, k.ttl, k.issuedAt, r.expiresAt,
                  k.workflowDigest, c.approver.sessionID, k.language, c.intent, r.request.nonce)
  {
  }

  /** Execution and completion go on exactly when the gate has approved and its commit fits the challenge. */
  lemma CommitErrorIff(a: Adapter, id: string)
    ensures CommitError(a, id).None? <==> Cleared(id, a.challenges, a.world.gate.requests)
  {
    hide CommitFits;
  }

  lemma ExecuteIff(a: Adapter, id: string, tool: string, args: string, preview: string, actor: Actor, now: Time)
    ensures var (a', reply) := ExecuteStart(a, id, tool, args, preview, actor, now);
      && (reply.Continues? <==>
            Cleared(id, a.challenges, a.world.gate.requests) && now < a.world.gate.requests[id].commit.value.expiresAt)
      && (reply.Continues? ==>
            a' == a.(locked := Some(ApproveNext(id, a.challenges[id].approver, ThenBegin(tool, args, preview, actor)))))
      && (!reply.Continues? ==> a' == a)
  {
    hide CommitFits;
  }

  lemma FinishIff(a: Adapter, id: string, succeeded: bool, actor: Actor)
    ensures var (a', reply) := FinishStart(a, id, succeeded, actor);
      && (reply.Continues? <==> Cleared(id, a.challenges, a.world.gate.requests))
      && a' == if reply.Continues? then a.(locked := Some(FinishNext(id, succeeded, actor))) else a
  {
    hide CommitFits;
  }

  /** The store call under the lock, and that an approval made for execution is followed by the begin. */
  lemma HeldIs(a: Adapter, write: Write)
    requires a.locked.Some?
    ensures var (a', reply) := HeldStep(a, write); var s := a.history.store;
      match a.locked.value
      case ApproveNext(id, approver, goal) =>
        var (s', answer) := Approve(s, id, approver, true, a.clock, write);
        && a'.history.store == s' && reply == StoreSays(answer)
        && a'.locked == (if goal.ThenBegin? && answer.Done?
                         then Some(BeginNext(id, goal.tool, goal.args, goal.preview, goal.actor)) else None)
        && (a'.challenges == if goal.MarkConfirmed? && answer.Done? && id in a.challenges
                             then a.challenges[id := a.challenges[id].(step := 3, needsThird := false)] else a.challenges)
      case BeginNext(id, tool, args, preview, actor) =>
        var (s', answer) := Begin(s, id, tool, args, preview, actor, true, a.clock, write);
        a'.history.store == s' && reply == StoreSays(answer) && a'.locked.None? && a'.challenges == a.challenges
      case FinishNext(id, succeeded, actor) =>
        var (s', answer) := Finish(s, id, succeeded, actor, true, a.clock, write);
        a'.history.store == s' && reply == StoreSays(answer) && a'.locked.None? && a'.challenges == a.challenges
      case RejectNext(id, actor) =>
        var (s', answer) := Reject(s, id, actor, a.clock, write);
        a'.history.store == s' && reply == StoreSays(answer) && a'.locked.None? && a'.challenges == a.challenges
  {
    hide Approve, Begin, Finish, Reject;
  }

  // ----- opening

  lemma OpenReadIff(a: Adapter, t: nat, id: string, actor: Actor, language: string)
    ensures var (a', reply) := OpenRead(a, t, id, actor, language);
      && (reply.Continues? <==>
            id in a.history.store.requests && a.history.store.requests[id].sensitivity == Destructive
            && a.history.store.requests[id].requester.subject != "" && a.history.store.requests[id].requester.sessionID != ""
            && a.history.store.requests[id].status == Waiting && ActorError(actor).None?
            && a.history.store.requests[id].requester.subject != actor.subject && NormalizeLanguage(language).Some?)
      && (reply.Continues? ==>
            a' == a.(flights := a.flights[t := Asked(id, a.history.store.requests[id], actor, NormalizeLanguage(language).value)]))
      && (!reply.Continues? ==> a' == a)
  {
    hide NormalizeLanguage, ActorError;
  }

  lemma OpenClockIff(a: Adapter, t: nat)
    requires t in a.flights && a.flights[t].Asked?
    ensures var (a', reply) := OpenClock(a, t); var f := a.flights[t];
      && (reply.Continues? <==> a.clock < f.request.expiresAt <= a.clock + MAX_APPROVAL_TTL)
      && a' == a.(flights := if reply.Continues? then a.flights[t := Opening(f.id, f.request, f.actor, f.language, a.clock)]
                             else a.flights - {t})
  {
  }

  /** A challenge that is there is shown again to its approver only, in its language, until it expires. */
  lemma ReopenedIff(c: Challenge, f: Flight)
    requires f.Opening?
    ensures Reopened(c, f).Opened? <==>
      && c.approver.subject == f.actor.subject && c.approver.sessionID == f.actor.sessionID
      && c.language == f.language && f.now < c.expiresAt
    ensures Reopened(c, f).Opened? ==> Reopened(c, f).challenge == c
  {
  }

  /** The binding an opening needs: the tool, intent and requester of the request it read. */
  lemma OpenRefuses(a: Adapter, t: nat, newID: string, refuse: bool)
    requires t in a.flights && a.flights[t].Opening?
    ensures var (a', reply) := Open(a, t, newID, refuse); var f := a.flights[t]; var b := OpeningBinding(a, f);
      && a'.bindings == a.bindings[f.id := b] && a'.flights == a.flights - {t}
      && (!BindingFits(b, f.request) ==> reply == Stop(NoCommit) && a'.challenges == a.challenges && a'.world == a.world)
      && (BindingFits(b, f.request) && f.id in a.challenges ==>
            reply == Reopened(a.challenges[f.id], f) && a'.challenges == a.challenges && a'.world == a.world)
  {
    hide BindingFits, Reopened, OpeningBinding, G.Submit, OpeningRequest, PhraseOf;
  }

  /** With a willing ledger a first opening succeeds exactly when the gate can admit the request, and starts
      the warning with it: at the time that was read, for this approver, under the new ID. */
  lemma FirstOpeningIsExact(a: Adapter, t: nat, newID: string)
    requires Inv(a) && t in a.flights && a.flights[t].Opening? && a.flights[t].id !in a.challenges
    requires BindingFits(OpeningBinding(a, a.flights[t]), a.flights[t].request)
    ensures var f := a.flights[t]; var b := OpeningBinding(a, f); var (a', reply) := Open(a, t, newID, false);
      && (reply.Opened? <==> Checks.Admissible(a.world.gate, OpeningRequest(f, b, a.epoch)))
      && (reply.Opened? ==>
            f.id in a'.challenges && f.id in a'.world.gate.requests && a'.challenges == a.challenges[f.id := reply.challenge]
            && reply.challenge == Challenge(newID, f.now, a'.world.gate.requests[f.id].expiresAt, f.language, PhraseOf(f.language),
                                            1, true, f.actor, b.scope, b.intent, NO_PROOF, 0, 0, false))
      && (!reply.Opened? ==> a'.challenges == a.challenges && a'.world == a.world)
  {
    OneFlight(a, t);
    GateOfInv(a);
    hide Inv, I.Inv, G.Submit, OpeningBinding, OpeningRequest, BindingFits, PhraseOf, Checks.Admissible, Exact.Submits, Reopened;
    var f := a.flights[t];
    var raw := OpeningRequest(f, OpeningBinding(a, f), a.epoch);
    Exact.SubmitIsExact(a.world, f.now, raw, a.clock);
    SubmitRecords(a.world, f.now, raw, false);
    OpeningNames(f, OpeningBinding(a, f), a.epoch);
  }

  lemma OpeningNames(f: Flight, b: Binding, epoch: nat)
    requires f.Opening?
    ensures OpeningRequest(f, b, epoch).id == f.id
  {
  }

  lemma GateOfInv(a: Adapter)
    requires Inv(a)
    ensures I.Inv(a.world, a.clock) && 0 < a.clock
  {
    hide I.Inv, S.Inv, Links, Covers, Scopes, AllTimely, AllGuarded, AllApart, Limits, Holds;
  }

  // ----- confirming

  lemma PrunedIff(budgets: map<string, Budget>, now: Time, key: string)
    ensures key in Pruned(budgets, now) <==> key in budgets && (budgets[key].verifying || now < budgets[key].expiresAt)
    ensures key in Pruned(budgets, now) ==> Pruned(budgets, now)[key] == budgets[key]
  {
  }

  /** Nobody but the approver, in the approver's session, gets anywhere with a challenge. */
  lemma OthersCannotConfirm(a: Adapter, t: nat, id: string, actor: Actor, input: Input, pruneAt: Time)
    requires id in a.challenges
    requires actor.subject != a.challenges[id].approver.subject || actor.sessionID != a.challenges[id].approver.sessionID
    ensures var (a', reply) := ConfirmStart(a, t, id, actor, input, pruneAt);
      a' == a.(budgets := Pruned(a.budgets, pruneAt)) && (reply == Stop(ActorInvalid) || reply == Stop(SessionOther))
  {
    hide Pruned;
  }

  lemma OthersCannotComplete(a: Adapter, t: nat, now: Time, refuse: bool)
    requires t in a.flights && a.flights[t].Proven? && a.flights[t].id in a.challenges
    requires var f := a.flights[t]; var approver := a.challenges[f.id].approver;
      f.actor.subject != approver.subject || f.actor.sessionID != approver.sessionID
    ensures ConfirmEnd(a, t, now, refuse).0 == a.(flights := a.flights - {t})
  {
  }

  /** Store and gate know the request, and its challenge is this actor's. */
  ghost predicate ConfirmableBy(a: Adapter, id: string, actor: Actor) {
    && id in a.challenges && id in a.history.store.requests && id in a.world.gate.requests
    && actor.subject == a.challenges[id].approver.subject && actor.sessionID == a.challenges[id].approver.sessionID
  }

  /** A challenge that may be answered now with this input: the gate still waits, the time is right and the
      phrase was typed. */
  ghost predicate Answerable(a: Adapter, id: string, actor: Actor, input: Input, now: Time) {
    && ConfirmableBy(a, id, actor)
    && var c, r := a.challenges[id], a.world.gate.requests[id];
       && r.status == Pending && now < r.expiresAt && input.phrase == c.phrase && c.warningStartedAt + WARNING_DELAY <= now
  }

  /** The budget of a key as it counts at a time: what is stored, while it lasts. */
  ghost function FailuresOf(budgets: map<string, Budget>, key: string, now: Time): nat {
    if key in budgets && (budgets[key].verifying || now < budgets[key].expiresAt) then budgets[key].failures else 0
  }

  ghost predicate MayVerify(a: Adapter, id: string, key: string, now: Time)
    requires id in a.challenges
  {
    && (key in a.budgets || |a.budgets| < 1024) && a.verifier
    && a.challenges[id].failures < 5 && FailuresOf(a.budgets, key, now) < 5
    && !a.challenges[id].verifying && !(key in a.budgets && a.budgets[key].verifying)
  }

  /** A cached proof is one the verifier gave for this challenge less than a minute ago, after a checkpoint. */
  ghost predicate HasProof(c: Challenge, now: Time) {
    c.step >= 2 && now < c.proofExpiresAt && ValidIdentifier(c.proof.token) && (c.proof.password || c.proof.totp)
  }

  lemma VerifyIsExact(a: Adapter, t: nat, id: string, actor: Actor, input: Input)
    requires id in a.challenges
    ensures var (a', reply) := Verify(a, t, id, actor, input); var c, key := a.challenges[id], BudgetKey(actor);
      if HasProof(c, a.clock) then
        reply.Continues? && a' == a.(flights := a.flights[t := Proven(id, actor, input, c.proof, a.clock)])
      else if MayVerify(a, id, key, a.clock) then
        && reply.Continues? && a'.flights == a.flights[t := Verifying(id, actor, input, key, a.clock)]
        && a'.challenges == a.challenges[id := c.(verifying := true)]
        && key in a'.budgets && a'.budgets == a.budgets[key := a'.budgets[key]] && a'.budgets[key].verifying
        && a'.budgets[key].failures == FailuresOf(a.budgets, key, a.clock)
        && a'.budgets[key].expiresAt == (if key in a.budgets && a.clock < a.budgets[key].expiresAt then a.budgets[key].expiresAt
                                         else a.clock + 300_000_000_000)
      else reply.Stop? && a' == a
  {
    hide ValidIdentifier, BudgetKey;
  }

  /** A confirmation goes on to its credentials exactly when the challenge may be answered; an approved record
      is passed on to the store if the store has not followed yet. */
  lemma ConfirmStartIsExact(a: Adapter, t: nat, id: string, actor: Actor, input: Input, pruneAt: Time)
    ensures var (a', reply) := ConfirmStart(a, t, id, actor, input, pruneAt);
      var pruned := a.(budgets := Pruned(a.budgets, pruneAt));
      && (Answerable(a, id, actor, input, a.clock) && a.world.gate.requests[id].commit.None? ==>
            (a', reply) == Verify(pruned, t, id, actor, input))
      && (id in a.world.gate.requests && a.world.gate.requests[id].status != Approved && !Answerable(a, id, actor, input, a.clock) ==>
            a' == pruned && reply.Stop?)
      && (ApprovedFor(a, id, actor) ==> (a', reply) == AlreadyApproved(pruned, id, a.clock))
  {
    hide Pruned, Verify, AlreadyApproved;
  }

  ghost predicate ApprovedFor(a: Adapter, id: string, actor: Actor) {
    ConfirmableBy(a, id, actor) && a.world.gate.requests[id].status == Approved && a.world.gate.requests[id].commit.Some?
  }

  /** With a proof, the approver is passed on to the gate while the record waits, and to the store once it is
      approved; a record settled otherwise is refused. */
  lemma ConfirmEndIsExact(a: Adapter, t: nat, now: Time, refuse: bool)
    requires t in a.flights && a.flights[t].Proven?
    ensures var f := a.flights[t]; var landed := a.(flights := a.flights - {t}); var (a', reply) := ConfirmEnd(a, t, now, refuse);
      && (ApprovedFor(a, f.id, f.actor) ==> (a', reply) == AlreadyApproved(landed, f.id, now))
      && (ConfirmableBy(a, f.id, f.actor) && a.world.gate.requests[f.id].status == Pending ==>
            (a', reply) == AskGate(landed, f, now, refuse))
      && (f.id in a.world.gate.requests && a.world.gate.requests[f.id].status != Pending && !ApprovedFor(a, f.id, f.actor) ==>
            a' == landed && reply.Stop?)
  {
    hide AlreadyApproved, AskGate;
  }

  lemma AlreadyApprovedIff(a: Adapter, id: string, now: Time)
    requires id in a.challenges && id in a.history.store.requests && id in a.world.gate.requests
    requires a.world.gate.requests[id].commit.Some?
    ensures var (a', reply) := AlreadyApproved(a, id, now); var r, c := a.world.gate.requests[id], a.challenges[id];
      && (reply.Continues? <==>
            a.history.store.requests[id].status != Granted && CommitFits(r, c) && now < r.commit.value.expiresAt)
      && a' == if reply.Continues? then a.(locked := Some(ApproveNext(id, c.approver, MarkConfirmed))) else a
  {
    hide CommitFits;
  }

  /** A verdict is counted: a valid proof goes on, anything else is one more failure of challenge and budget,
      and locks the budget for five minutes from when the check began. */
  lemma VerdictIsExact(a: Adapter, t: nat, verdict: Option<Proof>)
    requires t in a.flights && a.flights[t].Verifying? && a.flights[t].id in a.challenges && a.flights[t].key in a.budgets
    ensures var (a', reply) := Verdict(a, t, verdict); var f := a.flights[t];
      var c, b := a.challenges[f.id], a.budgets[f.key];
      if verdict.Some? && ValidIdentifier(verdict.value.token) && (verdict.value.password || verdict.value.totp) then
        reply.Continues? && a' == a.(challenges := a.challenges[f.id := c.(verifying := false)],
                                     budgets := a.budgets[f.key := b.(verifying := false, lastSeen := a.clock)],
                                     flights := a.flights[t := Proven(f.id, f.actor, f.input, verdict.value, a.clock)])
      else
        reply.Stop? && a' == a.(challenges := a.challenges[f.id := c.(verifying := false, failures := c.failures + 1)],
                                budgets := a.budgets[f.key := b.(verifying := false, failures := b.failures + 1,
                                                                 lastSeen := a.clock, expiresAt := f.now + 300_000_000_000)],
                                flights := a.flights - {t})
  {
    hide ValidIdentifier;
  }

  /** What the adapter makes of the gate's answer. */
  lemma AskGateIs(a: Adapter, f: Flight, now: Time, refuse: bool)
    requires f.Proven? && f.id in a.challenges && f.id in a.world.gate.requests
    ensures var c := a.challenges[f.id];
      var k := GateConfirmation(c, f.actor, f.input, f.proof, a.epoch, a.world.gate.requests[f.id].request.nonce);
      var (w, answer) := G.Confirm(a.world, now, f.id, k, refuse); var (a', reply) := AskGate(a, f, now, refuse);
      && a'.world == w && a'.history == a.history && a'.budgets == a.budgets
      && (answer.Ok? ==>
            reply.Continues? && a'.locked == Some(ApproveNext(f.id, c.approver, Return))
            && a'.challenges == a.challenges[f.id := c.(step := 3, needsThird := false, proof := NO_PROOF, proofExpiresAt := 0)])
      && (answer.Err? ==> a'.locked == a.locked && reply == GateSays(answer.error))
      && (answer == Err(ThirdConfirmation) ==>
            a'.challenges == a.challenges[f.id := c.(step := 2, needsThird := true, proof := f.proof,
                                                     proofExpiresAt := now + 60_000_000_000)])
      && (answer.Err? && answer.error != ThirdConfirmation ==> a'.challenges == a.challenges)
  {
    hide G.Confirm, GateConfirmation;
  }

  /** The confirmation put to the gate is the challenge's own, in the name of whoever answers it. */
  lemma GateConfirmationIs(c: Challenge, actor: Actor, input: Input, proof: Proof, epoch: nat, nonce: Token)
    ensures var k := GateConfirmation(c, actor, input, proof, epoch, nonce);
      && k.warningReadAt == c.warningStartedAt && k.confirmationID == c.confirmationID && k.scope == c.scope
      && k.intentDigest == c.intent && k.language == c.language && k.actor == actor.subject && k.sessionID == actor.sessionID
      && k.passwordConfirmed == proof.password && k.totpConfirmed == proof.totp && k.secondConfirmation == input.second
      && k.thirdConfirmation == input.third && k.phrase == input.phrase && k.policyEpoch == epoch && k.nonce == nonce
      && k.local && !k.breakGlass && k.ttl == 0 && k.step == 0 && k.workflowDigest == "" && k.breakGlassReason == ""
      && k.role == (if actor.role == "security_admin" then SecurityAdmin
                    else if actor.role == "tenant_owner" then TenantOwner else Operator)
  {
  }

  // ----- rejecting

  predicate Printable(s: string) { |s| <= 2048 && forall i | 0 <= i < |s| :: ' ' <= s[i] <= '~' }

  lemma PrintableIsValid(s: string)
    requires Printable(s)
    ensures ValidReason(s)
  {
  }

  lemma DefaultReasonIsValid()
    ensures ValidReason(DEFAULT_REASON) && !AllSpace(DEFAULT_REASON)
  {
    assert !IsSpace(DEFAULT_REASON[0]);
    PrintableIsValid(DEFAULT_REASON);
  }

  /** With a willing ledger, a rejection is not refused by the gate exactly when there is no challenge, the
      record is revoked already, or the actor is named well and the reason is empty or a valid one; then the
      gate's record is revoked, challenge and binding are gone, and the store is asked next. */
  lemma RejectIsExact(a: Adapter, id: string, actor: Actor, reason: string)
    requires Inv(a)
    ensures var (a', reply) := RejectStart(a, id, actor, reason, false);
      && (reply.Continues? <==>
            id !in a.challenges
            || (id in a.world.gate.requests
                && (a.world.gate.requests[id].status == Revoked
                    || (ValidIdentifier(actor.subject) && (reason == "" || (!AllSpace(reason) && ValidReason(reason)))))))
      && (reply.Continues? ==>
            a'.locked == Some(RejectNext(id, actor)) && id !in a'.challenges && id !in a'.bindings
            && a'.challenges == a.challenges - {id} && a'.bindings == a.bindings - {id})
      && (reply.Continues? && id in a.challenges ==>
            id in a'.world.gate.requests && a'.world.gate.requests[id].status == Revoked && a'.world.gate.requests[id].commit.None?)
      && (!reply.Continues? ==> a' == a)
  {
    hide Inv, I.Inv, G.Revoke, ValidReason, AllSpace, ValidOpaque, Warned;
    if id in a.challenges {
      GateOfInv(a);
      OneChallenge(a, id);
      DefaultReasonIsValid();
      RevokeOutcome(a, id, actor, if reason == "" then DEFAULT_REASON else reason);
    } else {
      assert a.challenges - {id} == a.challenges;
    }
  }

  lemma RevokeOutcome(a: Adapter, id: string, actor: Actor, text: string)
    requires I.Inv(a.world, a.clock) && 0 < a.clock && id in a.world.gate.requests
    ensures var (w, revoked) := G.Revoke(a.world, a.clock, id, actor.subject, text, false);
      && (revoked.Pass? <==>
            a.world.gate.requests[id].status != Revoked && ValidIdentifier(actor.subject) && !AllSpace(text) && ValidReason(text))
      && (revoked.Pass? ==> id in w.gate.requests && w.gate.requests[id].status == Revoked && w.gate.requests[id].commit.None?)
      && (revoked.Fail? ==> w == a.world && revoked.error != ExpiredError)
      && (revoked == Fail(RevokedError) <==> a.world.gate.requests[id].status == Revoked)
      && (a.world.gate.requests[id].status == Revoked ==> a.world.gate.requests[id].commit.None?)
  {
    Exact.RevokeIsExact(a.world, a.clock, id, actor.subject, text, a.clock);
    RevokeErrorsAre(a.world, a.clock, id, actor.subject, text);
    RevokedHasNoCommit(a.world, a.clock, id);
    hide I.Inv, G.Revoke, ValidReason, AllSpace, ValidOpaque, Exact.Tells;
  }

  lemma RevokeErrorsAre(w: G.World, now: Time, id: string, actor: string, text: string)
    requires id in w.gate.requests
    ensures var r := G.Revoke(w, now, id, actor, text, false).1;
      (r == Fail(RevokedError) <==> w.gate.requests[id].status == Revoked) && r != Fail(ExpiredError)
  {
    hide G.Persist, ValidReason, AllSpace, ValidOpaque, G.Withdraw;
    if G.RevokeChecks(w.gate, id, actor, text).Pass? {
      WithdrawPersistErrors(w, now, id, actor, text);
    }
  }

  lemma WithdrawPersistErrors(w: G.World, now: Time, id: string, actor: string, text: string)
    requires id in w.gate.requests
    ensures var p := G.Persist(w, G.Withdraw(w.gate, now, id, actor, "", text), id, false);
      p.Err? ==> p.error != RevokedError && p.error != ExpiredError
  {
    T.PersistErrors(w, G.Withdraw(w.gate, now, id, actor, "", text), id, false);
    hide G.Persist, G.Withdraw;
  }

  lemma RevokedHasNoCommit(w: G.World, clock: Time, id: string)
    requires I.Inv(w, clock) && id in w.gate.requests
    ensures w.gate.requests[id].status == Revoked ==> w.gate.requests[id].commit.None?
  {
    hide I.Inv;
    F.InvGate(w, clock);
    M.RecordAt(w.gate, id, clock);
    Exact.GoodIsProper(w.gate.requests[id], w.gate.policyEpoch, clock);
    hide Checks.ProperRequest, Checks.ProperCommit, Checks.ProperConfirmation, I.GateOK, I.GoodRecord, I.Trail;
  }

  /** A rejection that nothing stands in the way of ends with the request refused in the store. */
  lemma RejectionRefuses(a: Adapter, id: string, actor: Actor, reason: string)
    requires Inv(a) && id in a.history.store.requests && L.InTime(a.history.store.requests[id], a.clock)
    requires a.history.store.requests[id].status == Waiting || a.history.store.requests[id].status == Granted
    requires ValidIdentifier(actor.subject) && (reason == "" || (!AllSpace(reason) && ValidReason(reason)))
    ensures var a1 := RejectStart(a, id, actor, reason, false).0;
      a1.locked.Some? && var (a2, reply) := HeldStep(a1, Written);
      && reply.StoreSays? && reply.answer.Done? && id in a2.history.store.requests
      && a2.history.store.requests[id].status == Refused && a2.history.store.requests[id].rejectedBy == actor
  {
    hide Inv, RejectStart, L.InTime, ValidReason, AllSpace, ValidOpaque, HeldStep, Reject, Warned;
    RejectIsExact(a, id, actor, reason);
    RejectKeepsStore(a, id, actor, reason);
    if id in a.challenges { OneChallenge(a, id); }
    L.RejectionIsExact(a.history.store, id, actor, a.clock);
    HeldIs(RejectStart(a, id, actor, reason, false).0, Written);
  }

  lemma RejectKeepsStore(a: Adapter, id: string, actor: Actor, reason: string)
    ensures RejectStart(a, id, actor, reason, false).0.history == a.history
    ensures RejectStart(a, id, actor, reason, false).0.clock == a.clock
  {
    hide G.Revoke;
  }
}
