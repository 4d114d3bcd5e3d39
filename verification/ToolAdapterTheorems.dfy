/** The adapter's promises over whole interleavings: destructive tools run only with the gate's
    approval, credential checks stay bounded and exclusive, and a rejected request never runs. */
module ToolAdapterTheorems {
  import opened Wrappers
  import opened ApprovalTypes
  import opened ApprovalRules
  import opened ToolStore
  import opened ToolAdapter
  import opened ToolAdapterGate
  import opened ToolAdapterSafety
  import G = ApprovalGate
  import I = GateInvariant
  import T = GateTheorems
  import S = ToolStoreSafety

  // ----- runs

  /** A run of any interleaved sections in one process: a new adapter over a new gate, and a store that
      is new or was loaded from whatever earlier processes left. */
  ghost predicate IsRun(states: seq<Adapter>, ops: seq<Op>) {
    && |states| == |ops| + 1 && IsStart(states[0])
    && forall i | 0 <= i < |ops| :: Enabled(states[i], ops[i]) && states[i + 1] == Step(states[i], ops[i]).0
  }

  ghost predicate IsStart(a: Adapter) {
    0 < a.clock && S.Inv(a.history) && exists epoch, bound :: a == StartOver(epoch, bound, a.history, a.clock)
  }

  /** The same with a store that holds nothing yet. */
  ghost predicate IsFresh(a: Adapter) {
    0 < a.clock && exists epoch, bound, persistent, capacity, ttl ::
      a == StartOver(epoch, bound, S.Start(persistent, capacity, ttl), a.clock)
  }

  lemma FreshIsStart(a: Adapter)
    requires IsFresh(a)
    ensures IsStart(a)
  {
    var epoch, bound, persistent, capacity, ttl :| a == StartOver(epoch, bound, S.Start(persistent, capacity, ttl), a.clock);
    assert S.Inv(a.history);
    hide S.Inv;
  }

  /** When the process ends anywhere in a run, what the store leaves behind, however its file is read and
      written back, is again a place to start: the results below hold in every later process too. */
  lemma RestartIsStart(a: Adapter, crash: S.Op, epoch: nat, bound: bool, clock: Time)
    requires Inv(a) && crash.CrashOp? && S.Possible(a.history, crash) && 0 < clock
    ensures IsStart(StartOver(epoch, bound, S.Next(a.history, crash), clock))
  {
    assert S.Inv(a.history) by { hide I.Inv, S.Inv, Links, Covers, Scopes, AllTimely, AllGuarded, AllApart, Limits, Holds; }
    hide Inv, S.Inv, S.Next, S.Possible;
    S.NextKeepsInv(a.history, crash);
  }

  lemma StartIsGood(a: Adapter)
    requires IsStart(a)
    ensures Inv(a)
  {
    var epoch, bound :| a == StartOver(epoch, bound, a.history, a.clock);
    hide I.Inv, S.Inv;
    T.StartIsGood(epoch, bound);
    assert a.world == T.Start(epoch, bound);
    T.InvLater(a.world, 0, a.clock);
  }

  lemma {:induction false} RunKeepsInv(states: seq<Adapter>, ops: seq<Op>, i: nat)
    requires IsRun(states, ops) && i <= |ops|
    ensures Inv(states[i])
  {
    hide Inv, Enabled, Step, IsStart;
    if i == 0 {
      StartIsGood(states[0]);
    } else {
      RunKeepsInv(states, ops, i - 1);
      StepKeepsInv(states[i - 1], ops[i - 1]);
    }
  }

  // ----- which steps call the store

  /** The store call a step makes, if any. */
  ghost function StoreCall(a: Adapter, op: Op): Option<S.Op>
    requires Enabled(a, op)
  {
    match op
    case StoreOp(call) => Some(call)
    case CreateStartOp(_, call) =>
      if call.request.sensitivity != Destructive || ActorError(call.request.requester).Some? then None else Some(call)
    case HeldOp(write) => Some(HeldCall(a.locked.value, a.clock, write))
    case _ => None
  }

  lemma ConfirmEndKeepsHistory(a: Adapter, t: nat, now: Time, refuse: bool)
    requires t in a.flights && a.flights[t].Proven?
    ensures ConfirmEnd(a, t, now, refuse).0.history == a.history
  {
    hide ApproverError, G.Confirm, GateConfirmation, CommitFits;
  }

  lemma ConfirmKeepsHistory(a: Adapter, op: Op)
    requires op.ConfirmStartOp? || op.ConfirmEndOp? || op.VerdictOp?
    requires Enabled(a, op)
    ensures Step(a, op).0.history == a.history
  {
    hide ApproverError, ConfirmError, CachedProof, BudgetError, BudgetFor, CommitFits, Pruned, ValidProof, BudgetKey,
      ConfirmEnd, ChallengeAt, BudgetAt;
    if op.ConfirmEndOp? { ConfirmEndKeepsHistory(a, op.t, op.now, op.refuse); }
  }

  lemma StepHistory(a: Adapter, op: Op)
    requires Enabled(a, op)
    ensures StoreCall(a, op).None? ==> Step(a, op).0.history == a.history
    ensures StoreCall(a, op).Some? ==>
      Step(a, op).0.history == S.Next(a.history, StoreCall(a, op).value) && Step(a, op).0.world == a.world
  {
    hide G.Submit, G.Revoke, S.Next, S.Call, S.Possible, ActorError, NormalizeLanguage, CommitFits, BindingFits,
      PhraseOf, HeldCall, StillHeld, Confirmed, Reopened, BindingOf, OpeningBinding, OpeningRequest, CommitError;
    if op.ConfirmStartOp? || op.ConfirmEndOp? || op.VerdictOp? { ConfirmKeepsHistory(a, op); }
    hide ConfirmStart, ConfirmEnd, Verdict;
  }

  // ----- entering execution

  /** Request id newly enters execution. */
  ghost predicate Enters(s: Store, s': Store, id: string) {
    && id in s'.requests && s'.requests[id].status == Executing
    && !(id in s.requests && s.requests[id].status == Executing)
  }

  /** Only a begin that checked everything makes a request execute. */
  lemma OnlyBeginEnters(h: S.History, op: S.Op, id: string)
    requires S.Possible(h, op) && !op.CrashOp? && Enters(h.store, S.Call(h.store, op).0, id)
    ensures op.BeginOp? && op.id == id && id in h.store.requests && !Expires(h.store.requests[id], op.now)
    ensures h.store.requests[id].sensitivity == Destructive ==> op.gate
    ensures S.Call(h.store, op).0.requests[id].sensitivity == h.store.requests[id].sensitivity
  {
    hide Expires, PreviewDigest, RequesterMatches, MakesRoom;
    if op.CreateOp? { S.KeptIsPart(h.store.requests, op.kept, op.now, 1, h.store.capacity); }
  }

  /** A destructive request enters execution only as the next call of a holder who found it cleared. */
  lemma EntersUnderLock(a: Adapter, op: Op, id: string)
    requires Inv(a) && Enabled(a, op) && Enters(a.history.store, Step(a, op).0.history.store, id)
    requires Step(a, op).0.history.store.requests[id].sensitivity == Destructive
    ensures a.locked.Some? && a.locked.value.BeginNext? && a.locked.value.id == id
    ensures id in a.history.store.requests && !Expires(a.history.store.requests[id], a.clock)
    ensures a.history.store.requests[id].sensitivity == Destructive
  {
    hide Inv, Enters, S.Call, Step, Expires;
    StepHistory(a, op);
    if StoreCall(a, op).None? {
      NothingEnters(a.history.store, id);
    } else {
      var call := StoreCall(a, op).value;
      OnlyBeginEnters(a.history, call, id);
    }
  }

  lemma NothingEnters(s: Store, id: string)
    ensures !Enters(s, s, id)
  {
  }

  /** What the design promises of a destructive request at the moment it starts to run. */
  ghost predicate GateAuthorized(a: Adapter, id: string) {
    && id in a.history.created && id in a.challenges && id in a.world.gate.requests
    && a.world.gate.requests[id].status == Approved && a.world.gate.requests[id].commit.Some?
    && var q, c, r := a.history.created[id], a.challenges[id], a.world.gate.requests[id];
       var k := r.commit.value;
       && k.requestID == id && a.clock < k.expiresAt
       && k.actor == c.approver.subject && k.sessionID == c.approver.sessionID
       && k.actor != q.requester.subject && k.sessionID != q.requester.sessionID
       && k.intentDigest == ToolIntent(q) && k.scope == ToolScope(q.toolName)
       && c.warningStartedAt == r.submittedAt && c.warningStartedAt + WARNING_DELAY <= k.issuedAt
       && k.confirmationID == c.confirmationID == r.confirmation.confirmationID
       && exists i: nat, j: nat :: i < j < |a.world.gate.audit|
            && I.IsCheckpointFor(a.world.gate.audit[i], r) && I.IsAuthorizationFor(a.world.gate.audit[j], r)
  }

  lemma OneLink(a: Adapter, id: string)
    requires Inv(a) && id in a.world.gate.requests
    ensures id in a.history.created && Linked(a.world.gate.requests[id], a.history.created[id])
    ensures Warned(a.world.gate.requests[id]) && I.GateOK(a.world.gate, a.clock)
  {
    hide S.Inv, Covers, Scopes, AllTimely, AllGuarded, AllApart, Limits, Holds, Linked, Warned, I.GateOK;
  }

  lemma OneRequest(a: Adapter, id: string)
    requires Inv(a) && id in a.history.store.requests
    ensures id in a.history.created && S.SameIntent(a.history.store.requests[id], a.history.created[id])
  {
    hide I.Inv, Links, Covers, Scopes, AllTimely, AllGuarded, AllApart, Limits, Holds, S.SameIntent, S.Spent;
  }

  lemma ClearedByHolder(a: Adapter)
    requires Inv(a) && a.locked.Some? && a.locked.value.BeginNext?
    ensures Cleared(a.locked.value.id, a.challenges, a.world.gate.requests)
  {
    hide I.Inv, S.Inv, Links, Covers, Scopes, AllTimely, AllGuarded, AllApart, Limits, Cleared;
  }

  lemma ClearedIsAuthorized(a: Adapter, id: string)
    requires Inv(a) && Cleared(id, a.challenges, a.world.gate.requests)
    requires id in a.history.store.requests && !Expires(a.history.store.requests[id], a.clock)
    ensures GateAuthorized(a, id)
  {
    hide Inv, I.GateOK, I.IsCheckpointFor, I.IsAuthorizationFor, ToolIntent, ToolScope;
    OneLink(a, id);
    OneRequest(a, id);
    OneChallenge(a, id);
    ApprovedIsVouched(a.world.gate, id, a.clock);
  }

  /** In every interleaving, whenever a destructive request enters execution the gate holds an unexpired
      commit for exactly this request's tool, arguments and preview, from an approver whose subject and
      session both differ from the requester's, issued at least ten seconds after the warning the server
      started, with a checkpoint of the same confirmation before the authorization in the audit log. */
  lemma DestructiveExecutionIsAuthorized(states: seq<Adapter>, ops: seq<Op>, i: nat, id: string)
    requires IsRun(states, ops) && i < |ops|
    requires Enters(states[i].history.store, states[i + 1].history.store, id)
    requires states[i + 1].history.store.requests[id].sensitivity == Destructive
    ensures GateAuthorized(states[i], id) && states[i + 1].world == states[i].world
  {
    hide Inv, Enabled, Step, IsStart, Enters, GateAuthorized, Cleared, Expires;
    RunKeepsInv(states, ops, i);
    EntersUnderLock(states[i], ops[i], id);
    ClearedByHolder(states[i]);
    ClearedIsAuthorized(states[i], id);
    EntersKeepsWorld(states[i], ops[i], id);
  }

  lemma EntersKeepsWorld(a: Adapter, op: Op, id: string)
    requires Enabled(a, op) && Enters(a.history.store, Step(a, op).0.history.store, id)
    ensures Step(a, op).0.world == a.world
  {
    hide Enters, Step, Enabled, StoreCall;
    StepHistory(a, op);
    NothingEnters(a.history.store, id);
  }

  // ----- credential budgets

  /** In every interleaving: at most 1024 budgets, at most five failures on any budget or challenge, a
      budget is there and busy for as long as its verification runs, and no two verifications in
      flight share a budget or a challenge. */
  lemma CredentialChecksAreBounded(states: seq<Adapter>, ops: seq<Op>, i: nat)
    requires IsRun(states, ops) && i <= |ops|
    ensures var a := states[i];
      && |a.budgets| <= MAX_BUDGETS
      && (forall k | k in a.budgets :: a.budgets[k].failures <= MAX_FAILURES)
      && (forall id | id in a.challenges :: a.challenges[id].failures <= MAX_FAILURES)
      && (forall t | t in a.flights && a.flights[t].Verifying? ::
            a.flights[t].key in a.budgets && a.budgets[a.flights[t].key].verifying)
      && (forall t, t' | t in a.flights && t' in a.flights && t != t' && a.flights[t].Verifying? && a.flights[t'].Verifying? ::
            a.flights[t].key != a.flights[t'].key && a.flights[t].id != a.flights[t'].id)
  {
    hide Enabled, Step, IsStart, I.Inv, S.Inv, Links, Covers, Scopes, AllTimely, Holds;
    RunKeepsInv(states, ops, i);
    var a := states[i];
    forall t | t in a.flights && a.flights[t].Verifying?
      ensures a.flights[t].key in a.budgets && a.budgets[a.flights[t].key].verifying
    {
      assert Guarded(a.flights[t], a.budgets, a.challenges);
    }
    forall t, t' | t in a.flights && t' in a.flights && t != t' && a.flights[t].Verifying? && a.flights[t'].Verifying?
      ensures a.flights[t].key != a.flights[t'].key && a.flights[t].id != a.flights[t'].id
    {
      assert Apart(a.flights[t], a.flights[t']);
    }
  }

  // ----- rejection

  ghost predicate IsRevoked(a: Adapter, id: string) {
    id in a.world.gate.requests && a.world.gate.requests[id].status == Revoked
  }

  lemma WorldKeepsRevoked(w: G.World, op: G.Op, id: string)
    requires id in w.gate.requests && w.gate.requests[id].status == Revoked
    ensures var g := G.Step(w, op).0.gate; id in g.requests && g.requests[id].status == Revoked
  {
    hide G.Step;
    T.StepIsMonotone(w, op);
    T.RevokedStaysRevoked(w.gate, G.Step(w, op).0.gate, id);
  }

  lemma OpenKeepsRevoked(a: Adapter, t: nat, newID: string, refuse: bool, id: string)
    requires t in a.flights && a.flights[t].Opening? && IsRevoked(a, id)
    ensures IsRevoked(Open(a, t, newID, refuse).0, id)
  {
    hide G.Submit, Reopened, BindingFits, PhraseOf, OpeningRequest, OpeningBinding;
    var f := a.flights[t];
    WorldKeepsRevoked(a.world, G.SubmitOp(f.now, OpeningRequest(f, OpeningBinding(a, f), a.epoch), refuse), id);
  }

  lemma ConfirmEndKeepsRevoked(a: Adapter, t: nat, now: Time, refuse: bool, id: string)
    requires t in a.flights && a.flights[t].Proven? && IsRevoked(a, id)
    ensures IsRevoked(ConfirmEnd(a, t, now, refuse).0, id)
  {
    hide G.Confirm, ApproverError, GateConfirmation, CommitFits;
    var f := a.flights[t];
    if f.id in a.challenges && f.id in a.world.gate.requests {
      var k := GateConfirmation(a.challenges[f.id], f.actor, f.input, f.proof, a.epoch, a.world.gate.requests[f.id].request.nonce);
      WorldKeepsRevoked(a.world, G.ConfirmOp(now, f.id, k, refuse), id);
    }
  }

  lemma RejectKeepsRevoked(a: Adapter, x: string, actor: Actor, reason: string, refuse: bool, id: string)
    requires IsRevoked(a, id)
    ensures IsRevoked(RejectStart(a, x, actor, reason, refuse).0, id)
  {
    hide G.Revoke;
    WorldKeepsRevoked(a.world, G.RevokeOp(a.clock, x, actor.subject, if reason == "" then DEFAULT_REASON else reason, refuse), id);
  }

  lemma ConfirmStartKeepsWorld(a: Adapter, t: nat, id: string, actor: Actor, input: Input, pruneAt: Time)
    ensures ConfirmStart(a, t, id, actor, input, pruneAt).0.world == a.world
  {
    hide ApproverError, ConfirmError, CachedProof, BudgetError, BudgetFor, CommitFits, Pruned, ValidProof, BudgetKey;
  }

  lemma StepKeepsRevoked(a: Adapter, op: Op, id: string)
    requires Enabled(a, op) && IsRevoked(a, id)
    ensures IsRevoked(Step(a, op).0, id)
  {
    hide Open, ConfirmEnd, RejectStart, ConfirmStart, S.Next, S.Call, S.Possible, ActorError, NormalizeLanguage, CommitError,
      StillHeld, Confirmed, HeldCall, ValidProof;
    match op
    case OpenOp(t, newID, refuse) => OpenKeepsRevoked(a, t, newID, refuse, id);
    case ConfirmStartOp(t, x, actor, input, pruneAt) => ConfirmStartKeepsWorld(a, t, x, actor, input, pruneAt);
    case ConfirmEndOp(t, now, refuse) => ConfirmEndKeepsRevoked(a, t, now, refuse, id);
    case RejectStartOp(x, actor, reason, refuse) => RejectKeepsRevoked(a, x, actor, reason, refuse, id);
    case _ =>
  }

  lemma {:induction false} RevokedForGood(states: seq<Adapter>, ops: seq<Op>, i: nat, j: nat, id: string)
    requires IsRun(states, ops) && i <= j <= |ops| && IsRevoked(states[i], id)
    ensures IsRevoked(states[j], id)
    decreases j - i
  {
    hide Enabled, Step, IsStart, IsRevoked;
    if i < j {
      RevokedForGood(states, ops, i, j - 1, id);
      StepKeepsRevoked(states[j - 1], ops[j - 1], id);
    }
  }

  /** The gate knows only destructive requests. */
  lemma RevokedNeverEnters(a: Adapter, op: Op, id: string)
    requires Inv(a) && Enabled(a, op) && IsRevoked(a, id)
    ensures !Enters(a.history.store, Step(a, op).0.history.store, id)
  {
    hide Inv, Enters, Step, Enabled, StoreCall, S.Call;
    if Enters(a.history.store, Step(a, op).0.history.store, id) {
      OneLink(a, id);
      EnteredWas(a, op, id);
      OneRequest(a, id);
      EntersUnderLock(a, op, id);
      ClearedByHolder(a);
      assert false;
    }
  }

  lemma EnteredWas(a: Adapter, op: Op, id: string)
    requires Enabled(a, op) && Enters(a.history.store, Step(a, op).0.history.store, id)
    ensures id in Step(a, op).0.history.store.requests && id in a.history.store.requests
    ensures Step(a, op).0.history.store.requests[id].sensitivity == a.history.store.requests[id].sensitivity
  {
    hide Step, S.Call;
    StepHistory(a, op);
    NothingEnters(a.history.store, id);
    if StoreCall(a, op).Some? { OnlyBeginEnters(a.history, StoreCall(a, op).value, id); }
  }

  /** Once a rejection of a challenged request has not been refused by the gate, the request never newly
      enters execution in any later interleaving, whatever became of the store's own rejection and of
      verifications in flight. */
  lemma RejectedNeverExecutes(states: seq<Adapter>, ops: seq<Op>, i: nat, j: nat, id: string)
    requires IsRun(states, ops) && i < j < |ops| && ops[i].RejectStartOp? && ops[i].id == id
    requires id in states[i].challenges && !Step(states[i], ops[i]).1.GateSays?
    ensures !Enters(states[j].history.store, states[j + 1].history.store, id)
  {
    hide Inv, Enabled, Step, IsStart, Enters, IsRevoked;
    RunKeepsInv(states, ops, i);
    RejectRevokes(states[i], ops[i]);
    RevokedForGood(states, ops, i + 1, j, id);
    RunKeepsInv(states, ops, j);
    RevokedNeverEnters(states[j], ops[j], id);
  }

  lemma RejectRevokes(a: Adapter, op: Op)
    requires Inv(a) && Enabled(a, op) && op.RejectStartOp? && op.id in a.challenges && !Step(a, op).1.GateSays?
    ensures IsRevoked(Step(a, op).0, op.id)
  {
    hide Inv, RejectStart, CreateStart, Bind, OpenRead, OpenClock, Open, ConfirmStart, Verdict, ConfirmEnd, ExecuteStart, FinishStart,
      HeldStep, S.Possible, S.Next, S.Call, Links, Covers, AllTimely, I.Inv;
    RevokedGate(a, op.id, op.actor, op.reason, op.refuse);
    RejectReplies(a, op);
  }

  lemma RejectReplies(a: Adapter, op: Op)
    requires op.RejectStartOp?
    ensures var reply := RejectStart(a, op.id, op.actor, op.reason, op.refuse).1; reply.Continues? || reply.GateSays?
  {
    hide G.Revoke;
  }
}
