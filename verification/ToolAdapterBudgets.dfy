/** However many requests and sessions' calls overlap: of the failed credential checks under one budget key,
    any six began at least five minutes apart, first to last. */
module ToolAdapterBudgets {
  import opened Wrappers
  import opened ApprovalTypes
  import opened ApprovalRules
  import opened ToolStore
  import opened ToolAdapter
  import opened ToolAdapterSafety
  import opened ToolAdapterTheorems
  import Exact = ToolAdapterAnswers
  import G = ApprovalGate
  import I = GateInvariant
  import S = ToolStoreSafety

  /** The step is a failed check under the key. */
  ghost predicate FailsUnder(a: Adapter, op: Op, key: string) {
    && op.VerdictOp? && op.t in a.flights && a.flights[op.t].Verifying? && a.flights[op.t].key == key
    && !(op.verdict.Some? && ValidProof(op.verdict.value))
  }

  /** When the failed checks under the key began, in the order they failed. */
  ghost function Beginnings(states: seq<Adapter>, ops: seq<Op>, n: nat, key: string): seq<Time>
    requires n <= |ops| <= |states|
  {
    if n == 0 then []
    else Beginnings(states, ops, n - 1, key)
         + if FailsUnder(states[n - 1], ops[n - 1], key) then [states[n - 1].flights[ops[n - 1].t].now] else []
  }

  ghost predicate Sorted(l: seq<Time>) { forall i, j | 0 <= i <= j < |l| :: l[i] <= l[j] }

  ghost predicate Spaced(l: seq<Time>) { forall i | 0 <= i && i + 5 < |l| :: l[i] + LOCK_WINDOW <= l[i + 5] }

  /** A later failure would come at least a window after all of these. */
  ghost predicate Over(l: seq<Time>, t: Time) { l != [] ==> l[|l| - 1] + LOCK_WINDOW <= t }

  /** The budget has counted the last k failures, and those before are a window away. */
  ghost predicate Counts(l: seq<Time>, b: Budget) {
    && b.failures <= |l| && (b.failures > 0 ==> b.expiresAt == l[|l| - 1] + LOCK_WINDOW)
    && (0 < b.failures < |l| ==> l[|l| - b.failures - 1] + LOCK_WINDOW <= l[|l| - b.failures])
  }

  ghost predicate Under(f: Flight, key: string) { f.Verifying? && f.key == key }

  ghost predicate InFlight(a: Adapter, l: seq<Time>, f: Flight, key: string) {
    Under(f, key) ==>
      && f.now <= a.clock && (l != [] ==> l[|l| - 1] <= f.now)
      && key in a.budgets && (a.budgets[key].failures == 0 ==> Over(l, f.now))
  }

  ghost predicate Tracked(a: Adapter, key: string, l: seq<Time>) {
    && Sorted(l) && Spaced(l) && (l != [] ==> l[|l| - 1] <= a.clock)
    && (if key in a.budgets then Counts(l, a.budgets[key]) && (a.budgets[key].failures == 0 ==> Over(l, a.clock))
        else Over(l, a.clock))
    && (forall t | t in a.flights :: InFlight(a, l, a.flights[t], key))
  }

  // ----- steps that leave the budgets alone

  ghost predicate Leaves(a: Adapter, a': Adapter) {
    && a'.budgets == a.budgets && a.clock <= a'.clock
    && (forall t | t in a'.flights && a'.flights[t].Verifying? :: t in a.flights && a'.flights[t] == a.flights[t])
  }

  lemma LeavesTracked(a: Adapter, a': Adapter, key: string, l: seq<Time>)
    requires Tracked(a, key, l) && Leaves(a, a')
    ensures Tracked(a', key, l)
  {
    hide Sorted, Spaced, Counts;
    forall t | t in a'.flights
      ensures InFlight(a', l, a'.flights[t], key)
    {
      if a'.flights[t].Verifying? { assert InFlight(a, l, a.flights[t], key); }
    }
  }

  lemma OpenReadLeaves(a: Adapter, t: nat, id: string, actor: Actor, language: string)
    requires t !in a.flights
    ensures Leaves(a, OpenRead(a, t, id, actor, language).0)
  {
    hide ActorError, NormalizeLanguage;
  }

  lemma OpenClockLeaves(a: Adapter, t: nat)
    requires t in a.flights && a.flights[t].Asked?
    ensures Leaves(a, OpenClock(a, t).0)
  {
  }

  lemma CreateLeaves(a: Adapter, t: nat, call: S.Op)
    requires t !in a.flights && call.CreateOp?
    ensures Leaves(a, CreateStart(a, t, call).0)
  {
    hide S.Next, S.Call, ActorError;
  }

  lemma BindLeaves(a: Adapter, t: nat)
    requires t in a.flights && a.flights[t].Created?
    ensures Leaves(a, Bind(a, t).0)
  {
    hide BindingOf;
  }

  lemma CommitLeaves(a: Adapter, id: string, tool: string, args: string, preview: string, actor: Actor, now: Time, succeeded: bool)
    ensures Leaves(a, ExecuteStart(a, id, tool, args, preview, actor, now).0)
    ensures Leaves(a, FinishStart(a, id, succeeded, actor).0)
  {
    hide CommitFits;
  }

  lemma HeldLeaves(a: Adapter, write: Write)
    requires a.locked.Some?
    ensures Leaves(a, HeldStep(a, write).0)
  {
    hide S.Next, S.Call, StillHeld, HeldCall, Confirmed;
  }

  lemma OutsideLeaves(a: Adapter, op: Op)
    requires Enabled(a, op) && (op.TickOp? || op.VerifierOp? || op.StoreOp?)
    ensures Leaves(a, Step(a, op).0)
  {
    hide S.Next, S.Call, Outside;
  }

  lemma PlainLeaves(a: Adapter, op: Op)
    requires Enabled(a, op)
    requires !(op.OpenOp? || op.ConfirmStartOp? || op.VerdictOp? || op.ConfirmEndOp? || op.RejectStartOp?)
    ensures Leaves(a, Step(a, op).0)
  {
    hide Leaves, Outside, OpenRead, OpenClock, CreateStart, Bind, ExecuteStart, FinishStart, HeldStep, Open, ConfirmStart, Verdict,
      ConfirmEnd, RejectStart;
    match op
    case OpenReadOp(t, id, actor, language) => OpenReadLeaves(a, t, id, actor, language);
    case OpenClockOp(t) => OpenClockLeaves(a, t);
    case CreateStartOp(t, call) => CreateLeaves(a, t, call);
    case BindOp(t) => BindLeaves(a, t);
    case ExecuteStartOp(id, tool, args, preview, actor, now) => CommitLeaves(a, id, tool, args, preview, actor, now, true);
    case FinishStartOp(id, succeeded, actor) => CommitLeaves(a, id, "", "", "", actor, 0, succeeded);
    case HeldOp(write) => HeldLeaves(a, write);
    case _ => OutsideLeaves(a, op);
  }

  lemma OpenLeaves(a: Adapter, t: nat, newID: string, refuse: bool)
    requires t in a.flights && a.flights[t].Opening?
    ensures Leaves(a, Open(a, t, newID, refuse).0)
  {
    hide G.Submit, BindingFits, PhraseOf, Reopened, OpeningBinding, OpeningRequest;
  }

  lemma ConfirmEndLeaves(a: Adapter, t: nat, now: Time, refuse: bool)
    requires t in a.flights && a.flights[t].Proven?
    ensures Leaves(a, ConfirmEnd(a, t, now, refuse).0)
  {
    var landed, f := a.(flights := a.flights - {t}), a.flights[t];
    if f.id in a.challenges && f.id in a.history.store.requests && f.id in a.world.gate.requests {
      AskGateLeaves(landed, f, now, refuse);
      if a.world.gate.requests[f.id].commit.Some? { ApprovedLeaves(landed, f.id, now); }
    }
    LandedLeaves(a, t, ConfirmEnd(a, t, now, refuse).0);
    hide AskGate, AlreadyApproved, Leaves, ApproverError;
  }

  lemma LandedLeaves(a: Adapter, t: nat, a': Adapter)
    ensures Leaves(a.(flights := a.flights - {t}), a') ==> Leaves(a, a')
    ensures Leaves(a, a.(flights := a.flights - {t}))
  {
  }

  lemma AskGateLeaves(a: Adapter, f: Flight, now: Time, refuse: bool)
    requires f.Proven? && f.id in a.challenges && f.id in a.world.gate.requests
    ensures Leaves(a, AskGate(a, f, now, refuse).0)
  {
    hide G.Confirm, GateConfirmation;
  }

  lemma RejectLeaves(a: Adapter, id: string, actor: Actor, reason: string, refuse: bool)
    ensures Leaves(a, RejectStart(a, id, actor, reason, refuse).0)
  {
    hide G.Revoke;
  }

  // ----- starting a check

  lemma PruneTracks(a: Adapter, key: string, l: seq<Time>, pruneAt: Time)
    requires Tracked(a, key, l) && pruneAt <= a.clock && AllGuarded(a.flights, a.budgets, a.challenges)
    ensures Tracked(a.(budgets := Pruned(a.budgets, pruneAt)), key, l)
  {
    hide Sorted, Spaced;
    var a' := a.(budgets := Pruned(a.budgets, pruneAt));
    Exact.PrunedIff(a.budgets, pruneAt, key);
    hide Pruned;
    forall t | t in a'.flights
      ensures InFlight(a', l, a'.flights[t], key)
    {
      assert InFlight(a, l, a.flights[t], key) && Guarded(a.flights[t], a.budgets, a.challenges);
    }
  }

  lemma VerifyTracks(a: Adapter, t: nat, id: string, actor: Actor, input: Input, key: string, l: seq<Time>)
    requires Tracked(a, key, l) && id in a.challenges && AllGuarded(a.flights, a.budgets, a.challenges)
    ensures Tracked(Verify(a, t, id, actor, input).0, key, l)
  {
    hide Sorted, Spaced, Exact.HasProof, BudgetKey;
    Exact.VerifyIsExact(a, t, id, actor, input);
    VerifyKeepsClock(a, t, id, actor, input);
    var a' := Verify(a, t, id, actor, input).0;
    hide Verify;
    StartedCounts(a, a', key, l, BudgetKey(actor));
    forall t' | t' in a'.flights
      ensures InFlight(a', l, a'.flights[t'], key)
    {
      if t' in a.flights { assert InFlight(a, l, a.flights[t'], key) && Guarded(a.flights[t'], a.budgets, a.challenges); }
    }
  }

  lemma VerifyKeepsClock(a: Adapter, t: nat, id: string, actor: Actor, input: Input)
    requires id in a.challenges
    ensures Verify(a, t, id, actor, input).0.clock == a.clock
  {
    hide CachedProof, BudgetError, BudgetFor, BudgetKey;
  }

  /** The budget a check starts with counts the same failures, or none if they are a window ago. */
  lemma StartedCounts(a: Adapter, a': Adapter, key: string, l: seq<Time>, started: string)
    requires Tracked(a, key, l) && a'.clock == a.clock
    requires a'.budgets == a.budgets || (started in a'.budgets && a'.budgets == a.budgets[started := a'.budgets[started]]
      && a'.budgets[started].failures == Exact.FailuresOf(a.budgets, started, a.clock)
      && a'.budgets[started].expiresAt == (if started in a.budgets && a.clock < a.budgets[started].expiresAt
                                           then a.budgets[started].expiresAt else a.clock + LOCK_WINDOW)
      && !(started in a.budgets && a.budgets[started].verifying))
    ensures if key in a'.budgets then Counts(l, a'.budgets[key]) && (a'.budgets[key].failures == 0 ==> Over(l, a'.clock))
            else Over(l, a'.clock)
  {
  }

  lemma ConfirmStartTracks(a: Adapter, t: nat, id: string, actor: Actor, input: Input, pruneAt: Time, key: string, l: seq<Time>)
    requires Inv(a) && Tracked(a, key, l) && pruneAt <= a.clock
    ensures Tracked(ConfirmStart(a, t, id, actor, input, pruneAt).0, key, l)
  {
    hide Inv, Tracked, Pruned, Verify, AlreadyApproved, ApproverError, ConfirmError, AllGuarded;
    var a1 := a.(budgets := Pruned(a.budgets, pruneAt));
    PruneKeepsInv(a, pruneAt);
    GuardsOf(a);
    GuardsOf(a1);
    PruneTracks(a, key, l, pruneAt);
    if id in a.challenges && id in a.world.gate.requests {
      VerifyTracks(a1, t, id, actor, input, key, l);
      if id in a.history.store.requests && a.world.gate.requests[id].commit.Some? {
        ApprovedLeaves(a1, id, a.clock);
        LeavesTracked(a1, AlreadyApproved(a1, id, a.clock).0, key, l);
      }
    }
  }

  lemma GuardsOf(a: Adapter)
    requires Inv(a)
    ensures AllGuarded(a.flights, a.budgets, a.challenges)
  {
    hide I.Inv, S.Inv, AllGuarded, AllTimely, AllApart, Links, Covers, Limits, Holds, Scopes;
  }

  lemma ApprovedLeaves(a: Adapter, id: string, now: Time)
    requires id in a.challenges && id in a.history.store.requests && id in a.world.gate.requests
    requires a.world.gate.requests[id].commit.Some?
    ensures Leaves(a, AlreadyApproved(a, id, now).0)
  {
    hide CommitFits;
  }

  // ----- ending one

  lemma OneMoreFailure(l: seq<Time>, b: Budget, now: Time)
    requires Sorted(l) && Spaced(l) && Counts(l, b) && b.failures < MAX_FAILURES
    requires (l != [] ==> l[|l| - 1] <= now) && (b.failures == 0 ==> Over(l, now))
    ensures var l' := l + [now];
      Sorted(l') && Spaced(l') && Counts(l', b.(failures := b.failures + 1, expiresAt := now + LOCK_WINDOW))
  {
    var l' := l + [now];
    if |l| >= 5 {
      var i := |l| - 5;
      assert l[i] + LOCK_WINDOW <= now by {
        if b.failures > 0 { assert l[i] <= l[|l| - b.failures - 1] && l[|l| - b.failures] <= l[|l| - 1]; }
        else { assert l[i] <= l[|l| - 1]; }
      }
    }
  }

  /** What a verdict does to the budgets and the checks in flight. */
  lemma VerdictShape(a: Adapter, t: nat, verdict: Option<Proof>)
    requires Inv(a) && t in a.flights && a.flights[t].Verifying?
    ensures var f, a' := a.flights[t], Verdict(a, t, verdict).0;
      && f.key in a.budgets && f.key in a'.budgets && a'.budgets == a.budgets[f.key := a'.budgets[f.key]] && a'.clock == a.clock
      && (if FailsUnder(a, VerdictOp(t, verdict), f.key)
          then a'.budgets[f.key].failures == a.budgets[f.key].failures + 1 && a'.budgets[f.key].expiresAt == f.now + LOCK_WINDOW
          else a'.budgets[f.key].failures == a.budgets[f.key].failures && a'.budgets[f.key].expiresAt == a.budgets[f.key].expiresAt)
      && a.budgets[f.key].failures < MAX_FAILURES
      && (forall t' | t' in a'.flights && a'.flights[t'].Verifying? ::
            t' != t && t' in a.flights && a'.flights[t'] == a.flights[t'] && a.flights[t'].key != f.key)
  {
    hide Inv, ValidProof, ChallengeAt;
    OneFlight(a, t);
    KeysApart(a, t);
  }

  lemma KeysApart(a: Adapter, t: nat)
    requires Inv(a) && t in a.flights && a.flights[t].Verifying?
    ensures forall t' | t' in a.flights && t' != t && a.flights[t'].Verifying? :: a.flights[t'].key != a.flights[t].key
  {
    assert AllApart(a.flights) by { hide I.Inv, S.Inv, AllApart, AllGuarded, AllTimely, Links, Covers, Limits, Holds, Scopes; }
    hide Inv;
    forall t' | t' in a.flights && t' != t && a.flights[t'].Verifying?
      ensures a.flights[t'].key != a.flights[t].key
    {
      assert Apart(a.flights[t'], a.flights[t]);
    }
  }

  lemma VerdictTracks(a: Adapter, t: nat, verdict: Option<Proof>, key: string, l: seq<Time>)
    requires Inv(a) && t in a.flights && a.flights[t].Verifying? && Tracked(a, key, l)
    ensures Tracked(Verdict(a, t, verdict).0, key,
                    l + if FailsUnder(a, VerdictOp(t, verdict), key) then [a.flights[t].now] else [])
  {
    hide Inv, Verdict, Sorted, Spaced, FailsUnder;
    VerdictShape(a, t, verdict);
    var f, a' := a.flights[t], Verdict(a, t, verdict).0;
    OnlyItsKey(a, t, verdict, key);
    assert InFlight(a, l, f, key);
    if FailsUnder(a, VerdictOp(t, verdict), key) {
      OneMoreFailure(l, a.budgets[key], f.now);
      CountsIs(l + [f.now], a.budgets[key].(failures := a.budgets[key].failures + 1, expiresAt := f.now + LOCK_WINDOW), a'.budgets[key]);
      forall t' | t' in a'.flights
        ensures InFlight(a', l + [f.now], a'.flights[t'], key)
      {
      }
    } else {
      assert l + [] == l;
      forall t' | t' in a'.flights
        ensures InFlight(a', l, a'.flights[t'], key)
      {
        if t' in a.flights { assert InFlight(a, l, a.flights[t'], key); }
      }
    }
  }

  lemma CountsIs(l: seq<Time>, b: Budget, b': Budget)
    requires Counts(l, b) && b'.failures == b.failures && b'.expiresAt == b.expiresAt
    ensures Counts(l, b')
  {
  }

  lemma OnlyItsKey(a: Adapter, t: nat, verdict: Option<Proof>, key: string)
    requires t in a.flights
    ensures FailsUnder(a, VerdictOp(t, verdict), key) ==> a.flights[t].Verifying? && a.flights[t].key == key
    ensures a.flights[t].Verifying? && a.flights[t].key == key ==>
      (FailsUnder(a, VerdictOp(t, verdict), key) <==> FailsUnder(a, VerdictOp(t, verdict), a.flights[t].key))
  {
  }

  // ----- over a run

  lemma StepTracks(a: Adapter, op: Op, key: string, l: seq<Time>)
    requires Inv(a) && Enabled(a, op) && Tracked(a, key, l)
    ensures Tracked(Step(a, op).0, key, l + if FailsUnder(a, op, key) then [a.flights[op.t].now] else [])
  {
    hide Inv, Tracked, Leaves, CreateStart, Bind, OpenRead, OpenClock, Open, ConfirmStart, Verdict, ConfirmEnd, ExecuteStart,
      FinishStart, RejectStart, HeldStep, S.Possible, S.Next, S.Call, ValidProof;
    assert l + [] == l;
    match op
    case ConfirmStartOp(t, id, actor, input, pruneAt) => ConfirmStartTracks(a, t, id, actor, input, pruneAt, key, l);
    case VerdictOp(t, verdict) => VerdictTracks(a, t, verdict, key, l);
    case OpenOp(t, newID, refuse) =>
      OpenLeaves(a, t, newID, refuse);
      LeavesTracked(a, Step(a, op).0, key, l);
    case ConfirmEndOp(t, now, refuse) =>
      ConfirmEndLeaves(a, t, now, refuse);
      LeavesTracked(a, Step(a, op).0, key, l);
    case RejectStartOp(id, actor, reason, refuse) =>
      RejectLeaves(a, id, actor, reason, refuse);
      LeavesTracked(a, Step(a, op).0, key, l);
    case _ =>
      PlainLeaves(a, op);
      LeavesTracked(a, Step(a, op).0, key, l);
  }

  lemma {:induction false} RunTracks(states: seq<Adapter>, ops: seq<Op>, n: nat, key: string)
    requires IsRun(states, ops) && n <= |ops|
    ensures Tracked(states[n], key, Beginnings(states, ops, n, key))
  {
    hide Inv, Enabled, Step, Tracked, FailsUnder, IsStart;
    if n == 0 {
      StartTracks(states[0], key);
    } else {
      RunTracks(states, ops, n - 1, key);
      RunKeepsInv(states, ops, n - 1);
      StepTracks(states[n - 1], ops[n - 1], key, Beginnings(states, ops, n - 1, key));
    }
  }

  lemma StartTracks(a: Adapter, key: string)
    requires IsStart(a)
    ensures Tracked(a, key, [])
  {
    hide S.Inv;
  }

  /** In every interleaving, of the checks that failed under one budget key, in the order they failed, each
      fifth after another began at least five minutes after it. */
  lemma FailuresAreSpaced(states: seq<Adapter>, ops: seq<Op>, key: string, i: nat)
    requires IsRun(states, ops) && i + 5 < |Beginnings(states, ops, |ops|, key)|
    ensures var l := Beginnings(states, ops, |ops|, key); l[i] + 300_000_000_000 <= l[i + 5]
  {
    hide IsStart, Enabled, Step, FailsUnder, Beginnings;
    RunTracks(states, ops, |ops|, key);
  }
}
