/** Over a whole interleaving, however its calls overlap and even if it is rejected while a
    verification is in flight, a request survives at most five failed credential checks. */
module ToolAdapterFailures {
  import opened Wrappers
  import opened ApprovalTypes
  import opened ApprovalRules
  import opened ToolStore
  import opened ToolAdapter
  import opened ToolAdapterGate
  import opened ToolAdapterSafety
  import opened ToolAdapterTheorems
  import G = ApprovalGate
  import S = ToolStoreSafety

  /** The step is a failed credential check for request id. */
  ghost predicate FailsFor(a: Adapter, op: Op, id: string) {
    && op.VerdictOp? && op.t in a.flights && a.flights[op.t].Verifying? && a.flights[op.t].id == id
    && !(op.verdict.Some? && ValidProof(op.verdict.value))
  }

  /** How many credential checks for id failed in the first n steps. */
  ghost function Failures(states: seq<Adapter>, ops: seq<Op>, n: nat, id: string): nat
    requires n <= |ops| <= |states|
  {
    if n == 0 then 0
    else Failures(states, ops, n - 1, id) + if FailsFor(states[n - 1], ops[n - 1], id) then 1 else 0
  }

  ghost predicate Checking(f: Flight, id: string) { f.Verifying? && f.id == id }

  /** The challenge of id, while it is not revoked, has counted all n failures; a check in flight means
      there is room for one more. */
  ghost predicate Counted(a: Adapter, id: string, n: nat) {
    && n <= MAX_FAILURES && (id !in a.world.gate.requests ==> n == 0)
    && (id in a.challenges && !IsRevoked(a, id) ==> n == a.challenges[id].failures)
    && (forall t | t in a.flights && Checking(a.flights[t], id) :: n < MAX_FAILURES)
  }

  /** Nothing that counts for id happened between a and a'. */
  ghost predicate Quiet(a: Adapter, a': Adapter, id: string) {
    && (id in a'.world.gate.requests ==> id in a.world.gate.requests)
    && (IsRevoked(a, id) ==> IsRevoked(a', id))
    && (id in a'.challenges && !IsRevoked(a', id) ==>
          id in a.challenges && a'.challenges[id].failures == a.challenges[id].failures)
    && (forall t | t in a'.flights && Checking(a'.flights[t], id) :: t in a.flights && Checking(a.flights[t], id))
  }

  lemma QuietKeepsCount(a: Adapter, a': Adapter, id: string, n: nat)
    requires Counted(a, id, n) && Quiet(a, a', id)
    requires id in a.world.gate.requests ==> id in a'.world.gate.requests
    ensures Counted(a', id, n)
  {
    hide Checking, IsRevoked;
    assert id in a'.challenges && !IsRevoked(a', id) ==> n == a'.challenges[id].failures by {
      if id in a'.challenges && !IsRevoked(a', id) { assert !IsRevoked(a, id); }
    }
  }

  /** Steps that leave the gate alone, and every challenge's count. */
  lemma PlainStepIsQuiet(a: Adapter, op: Op, id: string)
    requires Enabled(a, op)
    requires !(op.OpenOp? || op.ConfirmStartOp? || op.VerdictOp? || op.ConfirmEndOp? || op.RejectStartOp?)
    ensures Quiet(a, Step(a, op).0, id) && Step(a, op).0.world == a.world
  {
    hide S.Next, S.Call, S.Possible, ActorError, NormalizeLanguage, CommitError, StillHeld, HeldCall, BindingOf,
      Open, ConfirmStart, Verdict, ConfirmEnd, RejectStart;
  }

  lemma ConfirmEndIsQuiet(a: Adapter, t: nat, now: Time, refuse: bool, id: string)
    requires t in a.flights && a.flights[t].Proven?
    ensures Quiet(a, ConfirmEnd(a, t, now, refuse).0, id)
    ensures ConfirmEnd(a, t, now, refuse).0.world.gate.requests.Keys == a.world.gate.requests.Keys
  {
    if IsRevoked(a, id) { ConfirmEndKeepsRevoked(a, t, now, refuse, id); }
    ConfirmEndShape(a, t, now, refuse);
    hide ConfirmEnd, IsRevoked;
  }

  /** The last section of a confirmation lands its flight and keeps the failure counts. */
  lemma ConfirmEndShape(a: Adapter, t: nat, now: Time, refuse: bool)
    requires t in a.flights && a.flights[t].Proven?
    ensures var a' := ConfirmEnd(a, t, now, refuse).0;
      && a'.flights == a.flights - {t} && a'.world.gate.requests.Keys == a.world.gate.requests.Keys
      && a'.challenges.Keys == a.challenges.Keys
      && forall x | x in a.challenges :: a'.challenges[x].failures == a.challenges[x].failures
  {
    hide AskGate, ApproverError, AlreadyApproved, Similar;
    var f, a1 := a.flights[t], a.(flights := a.flights - {t});
    if f.id in a.challenges && f.id in a.world.gate.requests {
      AskedFailures(a1, f, now, refuse);
      AskedKeys(a1, f, now, refuse);
      if f.id in a.history.store.requests && a.world.gate.requests[f.id].commit.Some? { ApprovedShape(a1, f.id, now); }
    }
  }

  lemma ApprovedShape(a: Adapter, id: string, now: Time)
    requires id in a.challenges && id in a.history.store.requests && id in a.world.gate.requests
    requires a.world.gate.requests[id].commit.Some?
    ensures var a' := AlreadyApproved(a, id, now).0;
      a'.world == a.world && a'.challenges == a.challenges && a'.flights == a.flights
  {
    hide CommitFits;
  }

  lemma AskedFailures(a: Adapter, f: Flight, now: Time, refuse: bool)
    requires f.Proven? && f.id in a.challenges && f.id in a.world.gate.requests
    ensures var m := AskGate(a, f, now, refuse).0.challenges;
      m.Keys == a.challenges.Keys && forall x | x in m :: m[x].failures == a.challenges[x].failures
  {
    hide AskGate;
    AskedChallenge(a, f, now, refuse);
  }

  lemma AskedKeys(a: Adapter, f: Flight, now: Time, refuse: bool)
    requires f.Proven? && f.id in a.challenges && f.id in a.world.gate.requests
    ensures var a' := AskGate(a, f, now, refuse).0;
      a'.flights == a.flights && a'.world.gate.requests.Keys == a.world.gate.requests.Keys
  {
    hide G.Confirm, GateConfirmation;
    ConfirmRecord(a.world, now, f.id, GateConfirmation(a.challenges[f.id], f.actor, f.input, f.proof, a.epoch,
                                                       a.world.gate.requests[f.id].request.nonce), refuse);
  }

  lemma RejectIsQuiet(a: Adapter, x: string, actor: Actor, reason: string, refuse: bool, id: string)
    ensures Quiet(a, RejectStart(a, x, actor, reason, refuse).0, id)
    ensures RejectStart(a, x, actor, reason, refuse).0.world.gate.requests.Keys == a.world.gate.requests.Keys
  {
    hide RejectStart, IsRevoked;
    if IsRevoked(a, id) { RejectKeepsRevoked(a, x, actor, reason, refuse, id); }
    RejectShape(a, x, actor, reason, refuse);
  }

  lemma RejectShape(a: Adapter, x: string, actor: Actor, reason: string, refuse: bool)
    ensures var a' := RejectStart(a, x, actor, reason, refuse).0;
      && a'.flights == a.flights && (a'.challenges == a.challenges || a'.challenges == a.challenges - {x})
      && a'.world.gate.requests.Keys == a.world.gate.requests.Keys
  {
    hide G.Revoke;
    RevokeRecord(a.world, a.clock, x, actor.subject, if reason == "" then DEFAULT_REASON else reason, refuse);
  }

  /** Opening starts a count at zero, for a request the gate did not know. */
  lemma OpenCounts(a: Adapter, t: nat, newID: string, refuse: bool, id: string, n: nat)
    requires t in a.flights && a.flights[t].Opening? && Counted(a, id, n)
    ensures Counted(Open(a, t, newID, refuse).0, id, n)
  {
    hide Open;
    var f, a' := a.flights[t], Open(a, t, newID, refuse).0;
    OpenShape(a, t, newID, refuse);
    if id in a.world.gate.requests || id !in a'.world.gate.requests {
      if IsRevoked(a, id) { OpenKeepsRevoked(a, t, newID, refuse, id); }
      hide IsRevoked, Checking;
      QuietKeepsCount(a, a', id, n);
    } else {
      hide IsRevoked, Checking;
    }
  }

  lemma OpenShape(a: Adapter, t: nat, newID: string, refuse: bool)
    requires t in a.flights && a.flights[t].Opening?
    ensures var f, a' := a.flights[t], Open(a, t, newID, refuse).0;
      && a'.flights == a.flights - {t}
      && ((a'.world.gate.requests == a.world.gate.requests && a'.challenges == a.challenges)
          || (f.id !in a.world.gate.requests && f.id !in a.challenges && f.id in a'.challenges
              && a'.challenges == a.challenges[f.id := a'.challenges[f.id]] && a'.challenges[f.id].failures == 0
              && a'.world.gate.requests.Keys == a.world.gate.requests.Keys + {f.id}
              && forall x | x in a.world.gate.requests :: a'.world.gate.requests[x] == a.world.gate.requests[x]))
  {
    hide BindingFits, Reopened, OpeningBinding, StartChallenge;
    var f := a.flights[t];
    var b := OpeningBinding(a, f);
    if f.id !in a.challenges {
      ChallengeShape(a.(flights := a.flights - {t}, bindings := a.bindings[f.id := b]), f, b, newID, refuse);
    }
  }

  lemma ChallengeShape(a: Adapter, f: Flight, b: Binding, newID: string, refuse: bool)
    requires f.Opening? && f.id !in a.challenges
    ensures var a' := StartChallenge(a, f, b, newID, refuse).0;
      && a'.flights == a.flights
      && ((a'.world.gate.requests == a.world.gate.requests && a'.challenges == a.challenges)
          || (f.id !in a.world.gate.requests && f.id in a'.challenges
              && a'.challenges == a.challenges[f.id := a'.challenges[f.id]] && a'.challenges[f.id].failures == 0
              && a'.world.gate.requests.Keys == a.world.gate.requests.Keys + {f.id}
              && forall x | x in a.world.gate.requests :: a'.world.gate.requests[x] == a.world.gate.requests[x]))
  {
    hide G.Submit, PhraseOf, G.AdmitRequest, G.NewRecord;
    SubmitRecords(a.world, f.now, OpeningRequest(f, b, a.epoch), refuse);
  }

  /** A check only starts below five failures. */
  lemma ConfirmStartCounts(a: Adapter, t: nat, x: string, actor: Actor, input: Input, pruneAt: Time, id: string, n: nat)
    requires Counted(a, id, n) && t !in a.flights
    ensures Counted(ConfirmStart(a, t, x, actor, input, pruneAt).0, id, n)
  {
    ConfirmStartShape(a, t, x, actor, input, pruneAt);
    hide ConfirmStart;
  }

  lemma ConfirmStartShape(a: Adapter, t: nat, x: string, actor: Actor, input: Input, pruneAt: Time)
    requires t !in a.flights
    ensures var a' := ConfirmStart(a, t, x, actor, input, pruneAt).0;
      && a'.world == a.world && a'.challenges.Keys == a.challenges.Keys
      && (forall y | y in a.challenges :: a'.challenges[y].failures == a.challenges[y].failures)
      && (a'.flights == a.flights
          || (t in a'.flights && a'.flights == a.flights[t := a'.flights[t]]
              && (a'.flights[t].Verifying? ==>
                    && a'.flights[t].id == x && x in a.challenges && a.challenges[x].failures < MAX_FAILURES
                    && !IsRevoked(a, x))))
  {
    hide Pruned, ApproverError, Verify, AlreadyApproved, ConfirmError;
    var a1 := a.(budgets := Pruned(a.budgets, pruneAt));
    if x in a.challenges && x in a.world.gate.requests {
      VerifyShape(a1, t, x, actor, input);
      NotRevoked(a1, x, input);
      if x in a.history.store.requests && a.world.gate.requests[x].commit.Some? { ApprovedShape(a1, x, a.clock); }
    }
  }

  lemma NotRevoked(a: Adapter, x: string, input: Input)
    requires x in a.challenges && x in a.world.gate.requests
    ensures ConfirmError(a.world.gate.requests[x], a.challenges[x], input, a.clock).None? ==> !IsRevoked(a, x)
  {
  }

  lemma RoomForOne(a: Adapter, key: string, c: Challenge)
    ensures BudgetError(a, key, c, a.clock).None? ==> c.failures < MAX_FAILURES
  {
    hide BudgetFor;
  }

  lemma VerifyShape(a: Adapter, t: nat, x: string, actor: Actor, input: Input)
    requires x in a.challenges
    ensures var a' := Verify(a, t, x, actor, input).0;
      && a'.world == a.world && a'.challenges.Keys == a.challenges.Keys
      && (forall y | y in a.challenges :: a'.challenges[y].failures == a.challenges[y].failures)
      && (a'.flights == a.flights
          || (t in a'.flights && a'.flights == a.flights[t := a'.flights[t]]
              && (a'.flights[t].Verifying? ==> a'.flights[t].id == x && a.challenges[x].failures < MAX_FAILURES)))
  {
    hide CachedProof, BudgetKey, BudgetError, BudgetFor;
    RoomForOne(a, BudgetKey(actor), a.challenges[x]);
  }

  /** A failed check is counted once, and another cannot be in flight. */
  lemma VerdictCounts(a: Adapter, t: nat, verdict: Option<Proof>, id: string, n: nat)
    requires Inv(a) && t in a.flights && a.flights[t].Verifying? && Counted(a, id, n)
    ensures Counted(Verdict(a, t, verdict).0, id, n + if FailsFor(a, VerdictOp(t, verdict), id) then 1 else 0)
  {
    hide Inv, FailsFor, Verdict;
    var f := a.flights[t];
    OthersApart(a, t);
    VerdictShape(a, t, verdict);
    OneFlight(a, t);
    if f.id !in a.challenges { UnchallengedIsRevoked(a, f.id); }
    if f.id == id { assert Checking(f, id); }
  }

  lemma VerdictShape(a: Adapter, t: nat, verdict: Option<Proof>)
    requires t in a.flights && a.flights[t].Verifying?
    ensures var f, a' := a.flights[t], Verdict(a, t, verdict).0;
      && a'.world == a.world && f.id in a'.challenges && a'.challenges == a.challenges[f.id := a'.challenges[f.id]]
      && a'.challenges[f.id].failures == ChallengeAt(a.challenges, f.id).failures
           + (if FailsFor(a, VerdictOp(t, verdict), f.id) then 1 else 0)
      && forall t' | t' in a'.flights && a'.flights[t'].Verifying? :: t' != t && t' in a.flights && a'.flights[t'] == a.flights[t']
    ensures forall id | id != a.flights[t].id :: !FailsFor(a, VerdictOp(t, verdict), id)
  {
    hide ValidProof, ChallengeAt, BudgetAt;
  }

  lemma OthersApart(a: Adapter, t: nat)
    requires Inv(a) && t in a.flights && a.flights[t].Verifying?
    ensures forall t' | t' in a.flights && t' != t && a.flights[t'].Verifying? :: a.flights[t'].id != a.flights[t].id
  {
    assert AllApart(a.flights) by { hide AllApart, AllGuarded, AllTimely, Links, Covers, Limits, Holds, Scopes; }
    hide Inv;
    forall t' | t' in a.flights && t' != t && a.flights[t'].Verifying?
      ensures a.flights[t'].id != a.flights[t].id
    {
      assert Apart(a.flights[t'], a.flights[t]);
    }
  }

  lemma UnchallengedIsRevoked(a: Adapter, id: string)
    requires Inv(a) && id in a.world.gate.requests && id !in a.challenges
    ensures IsRevoked(a, id)
  {
    assert Covers(a.challenges, a.world.gate.requests) by { hide AllApart, AllGuarded, AllTimely, Links, Covers, Limits, Holds, Scopes; }
    hide Inv;
  }

  lemma StepCounts(a: Adapter, op: Op, id: string, n: nat)
    requires Inv(a) && Enabled(a, op) && Counted(a, id, n)
    ensures Counted(Step(a, op).0, id, n + if FailsFor(a, op, id) then 1 else 0)
  {
    hide Inv, Counted, IsRevoked, Quiet, CreateStart, Bind, OpenRead, OpenClock, Open, ConfirmStart, Verdict, ConfirmEnd, ExecuteStart,
      FinishStart, RejectStart, HeldStep, S.Possible, S.Next, S.Call, ValidProof;
    match op
    case OpenOp(t, newID, refuse) => OpenCounts(a, t, newID, refuse, id, n);
    case ConfirmStartOp(t, x, actor, input, pruneAt) => ConfirmStartCounts(a, t, x, actor, input, pruneAt, id, n);
    case VerdictOp(t, verdict) => VerdictCounts(a, t, verdict, id, n);
    case ConfirmEndOp(t, now, refuse) =>
      ConfirmEndIsQuiet(a, t, now, refuse, id);
      QuietKeepsCount(a, Step(a, op).0, id, n);
    case RejectStartOp(x, actor, reason, refuse) =>
      RejectIsQuiet(a, x, actor, reason, refuse, id);
      QuietKeepsCount(a, Step(a, op).0, id, n);
    case _ =>
      PlainStepIsQuiet(a, op, id);
      QuietKeepsCount(a, Step(a, op).0, id, n);
  }

  lemma {:induction false} RunCounts(states: seq<Adapter>, ops: seq<Op>, n: nat, id: string)
    requires IsRun(states, ops) && n <= |ops|
    ensures Counted(states[n], id, Failures(states, ops, n, id))
  {
    hide Inv, Enabled, Step, Counted, FailsFor, IsStart;
    if n == 0 {
      StartCounts(states[0], id);
    } else {
      RunCounts(states, ops, n - 1, id);
      RunKeepsInv(states, ops, n - 1);
      StepCounts(states[n - 1], ops[n - 1], id, Failures(states, ops, n - 1, id));
    }
  }

  lemma StartCounts(a: Adapter, id: string)
    requires IsStart(a)
    ensures Counted(a, id, 0)
  {
  }

  /** At most five credential checks ever fail for one request. */
  lemma FailedChecksAreBounded(states: seq<Adapter>, ops: seq<Op>, id: string)
    requires IsRun(states, ops)
    ensures Failures(states, ops, |ops|, id) <= MAX_FAILURES
  {
    hide IsStart, Enabled, Step, FailsFor, Failures;
    RunCounts(states, ops, |ops|, id);
  }
}
