/** The adapter as an object over a live gate and a live store. Each method is one critical
    section; its ghost argument is the abstract adapter before it, which the object shows,
    and the object shows the section's result after it. */
module ToolAdapterObject {
  import opened Wrappers
  import opened ApprovalTypes
  import opened ApprovalRules
  import opened ToolStore
  import opened GateObject
  import opened ToolStoreObject
  import A = ToolAdapter
  import G = ApprovalGate

  class LiveAdapter {
    const gate: LiveGate
    const store: LiveStore
    const policyEpoch: nat
    var bindings: map<string, A.Binding>
    var challenges: map<string, A.Challenge>
    var credentialBudgets: map<string, A.Budget>
    var credentialVerifier: bool

    constructor (gate: LiveGate, store: LiveStore, policyEpoch: nat)
      ensures this.gate == gate && this.store == store && this.policyEpoch == policyEpoch
      ensures bindings == map[] && challenges == map[] && credentialBudgets == map[] && !credentialVerifier
    {
      this.gate, this.store, this.policyEpoch := gate, store, policyEpoch;
      bindings, challenges, credentialBudgets, credentialVerifier := map[], map[], map[], false;
    }

    /** The object is in the state the abstract adapter describes. */
    ghost predicate Shows(a: A.Adapter)
      reads this, gate, gate.persistence, store
    {
      && a.world == gate.View() && a.history.store == store.Value() && a.epoch == policyEpoch
      && a.bindings == bindings && a.challenges == challenges && a.budgets == credentialBudgets
      && a.verifier == credentialVerifier
    }

    method SetCredentialVerifier(present: bool, ghost a: A.Adapter)
      requires Shows(a)
      modifies this
      ensures Shows(a.(verifier := present))
    {
      credentialVerifier := present;
    }

    // The gate calls, which leave the adapter's own fields and the store alone.

    method GateSubmit(now: Time, raw: Request, refuse: bool, ghost a: A.Adapter) returns (out: Result<Record>)
      requires Shows(a)
      modifies gate, gate.persistence
      ensures out == G.Submit(a.world, now, raw, refuse).1 && Shows(a.(world := G.Submit(a.world, now, raw, refuse).0))
    {
      hide G.Submit;
      out := gate.Submit(now, raw, refuse);
    }

    method GateConfirm(now: Time, id: string, c: Confirmation, refuse: bool, ghost a: A.Adapter) returns (out: Result<Commit>)
      requires Shows(a)
      modifies gate, gate.persistence
      ensures out == G.Confirm(a.world, now, id, c, refuse).1 && Shows(a.(world := G.Confirm(a.world, now, id, c, refuse).0))
    {
      hide G.Confirm;
      out := gate.Confirm(now, id, c, refuse);
    }

    method GateRevoke(now: Time, id: string, actor: string, reason: string, refuse: bool, ghost a: A.Adapter)
      returns (out: Outcome)
      requires Shows(a)
      modifies gate, gate.persistence
      ensures out == G.Revoke(a.world, now, id, actor, reason, refuse).1
      ensures Shows(a.(world := G.Revoke(a.world, now, id, actor, reason, refuse).0))
    {
      hide G.Revoke;
      out := gate.Revoke(now, id, actor, reason, refuse);
    }

    /** pruneCredentialBudgetsLocked. */
    method PruneBudgets(now: Time)
      modifies this`credentialBudgets
      ensures credentialBudgets == A.Pruned(old(credentialBudgets), now)
    {
      var todo := credentialBudgets.Keys;
      ghost var all := credentialBudgets;
      while todo != {}
        invariant todo <= all.Keys
        invariant credentialBudgets ==
          map k | k in all && (k in todo || all[k].verifying || now < all[k].expiresAt) :: all[k]
        decreases |todo|
      {
        var key :| key in todo;
        todo := todo - {key};
        var budget := credentialBudgets[key];
        if !budget.verifying && budget.expiresAt <= now { credentialBudgets := credentialBudgets - {key}; }
      }
    }

    /** The end of CreateForWithPreview. */
    method BindLocked(f: A.Flight, ghost a: A.Adapter, ghost t: nat)
      requires Shows(a) && t in a.flights && a.flights[t] == f && f.Created?
      modifies this
      ensures Shows(A.Bind(a, t).0)
    {
      bindings := bindings[f.request.id := A.BindingOf(f.request, f.actor)];
    }

    /** BeginConfirmation before its lock: what it reads of the store and checks, and the flight it leaves. */
    method OpenUnlocked(id: string, actor: Actor, language: string, ghost a: A.Adapter, ghost t: nat)
      returns (reply: A.Reply, flight: Option<A.Flight>)
      requires Shows(a)
      ensures A.OpenRead(a, t, id, actor, language)
           == (if flight.Some? then a.(flights := a.flights[t := flight.value]) else a, reply)
    {
      hide NormalizeLanguage, A.ActorError;
      if id !in store.requests { return A.Stop(A.Unknown), None; }
      var r := store.requests[id];
      if r.sensitivity != Destructive { return A.Stop(A.UnsupportedTool), None; }
      if r.requester.subject == "" || r.requester.sessionID == "" { return A.Stop(A.Unavailable), None; }
      if r.status != Waiting { return A.Stop(A.NotWaiting), None; }
      var wrong := A.ActorError(actor);
      if wrong.Some? { return A.Stop(wrong.value), None; }
      if r.requester.subject == actor.subject { return A.Stop(A.ApproverRequired), None; }
      var tag := NormalizeLanguage(language);
      if tag.None? { return A.Stop(A.BadLanguage), None; }
      return A.Continues, Some(A.Asked(id, r, actor, tag.value));
    }

    /** The time BeginConfirmation reads next, with no lock held and whatever the store has become. */
    method OpenTimed(f: A.Flight, now: Time, ghost a: A.Adapter, ghost t: nat) returns (reply: A.Reply, flight: Option<A.Flight>)
      requires t in a.flights && a.flights[t] == f && f.Asked? && a.clock == now
      ensures A.OpenClock(a, t)
           == (a.(flights := if flight.Some? then a.flights[t := flight.value] else a.flights - {t}), reply)
    {
      if f.request.expiresAt <= now { return A.Stop(A.Late), None; }
      if f.request.expiresAt - now > MAX_APPROVAL_TTL { return A.Stop(A.TooLong), None; }
      return A.Continues, Some(A.Opening(f.id, f.request, f.actor, f.language, now));
    }

    /** BeginConfirmation after its lock was taken. */
    method OpenLocked(f: A.Flight, newID: string, refuse: bool, ghost a: A.Adapter, ghost t: nat) returns (reply: A.Reply)
      requires Shows(a) && t in a.flights && a.flights[t] == f && f.Opening?
      modifies this, gate, gate.persistence
      ensures Shows(A.Open(a, t, newID, refuse).0) && reply == A.Open(a, t, newID, refuse).1
    {
      hide A.BindingOf, A.BindingFits, A.Reopened, A.StartChallenge, LiveGate.View, LiveStore.Value;
      var id := f.id;
      if id !in bindings { bindings := bindings[id := A.BindingOf(f.request, f.request.requester)]; }
      var b := bindings[id];
      assert b == A.OpeningBinding(a, f) && bindings == a.bindings[id := b];
      hide A.OpeningBinding;
      if !A.BindingFits(b, f.request) { return A.Stop(A.NoCommit); }
      if id in challenges { return A.Reopened(challenges[id], f); }
      reply := StartChallengeLocked(f, b, newID, refuse, a.(flights := a.flights - {t}, bindings := bindings));
    }

    method StartChallengeLocked(f: A.Flight, b: A.Binding, newID: string, refuse: bool, ghost a: A.Adapter)
      returns (reply: A.Reply)
      requires Shows(a) && f.Opening?
      modifies this, gate, gate.persistence
      ensures Shows(A.StartChallenge(a, f, b, newID, refuse).0) && reply == A.StartChallenge(a, f, b, newID, refuse).1
    {
      hide G.Submit, A.PhraseOf, A.OpeningRequest, LiveGate.View, LiveStore.Value;
      var submitted := GateSubmit(f.now, A.OpeningRequest(f, b, policyEpoch), refuse, a);
      if submitted.Err? { return A.GateSays(submitted.error); }
      var c := A.Challenge(newID, f.now, submitted.value.expiresAt, f.language, A.PhraseOf(f.language), 1, true, f.actor,
                           b.scope, b.intent, A.NO_PROOF, 0, 0, false);
      challenges := challenges[f.id := c];
      return A.Opened(c);
    }

    /** A confirmation that finds the record approved: the store is asked next, under the same lock. */
    method FindApproved(id: string, now: Time, ghost a: A.Adapter) returns (reply: A.Reply, held: Option<A.Held>)
      requires Shows(a) && a.locked.None? && id in challenges && id in store.requests && id in gate.requests
      requires gate.requests[id].commit.Some?
      ensures A.AlreadyApproved(a, id, now) == (a.(locked := held), reply)
    {
      hide A.CommitFits;
      var record, state := gate.requests[id], challenges[id];
      held := None;
      if store.requests[id].status == Granted { return A.Stop(A.Replayed), None; }
      if !A.CommitFits(record, state) { return A.Stop(A.NoCommit), None; }
      if record.commit.value.expiresAt <= now { return A.Stop(A.Late), None; }
      return A.Continues, Some(A.ApproveNext(id, state.approver, A.MarkConfirmed));
    }

    /** ConfirmContext up to the release of the lock. */
    method ConfirmLocked(id: string, actor: Actor, input: A.Input, pruneAt: Time, now: Time,
                         ghost a: A.Adapter, ghost t: nat)
      returns (reply: A.Reply, flight: Option<A.Flight>, held: Option<A.Held>)
      requires Shows(a) && a.locked.None? && a.clock == now
      modifies this
      ensures var (a', r) := A.ConfirmStart(a, t, id, actor, input, pruneAt);
        && Shows(a') && reply == r && a'.locked == held
        && a'.flights == if flight.Some? then a.flights[t := flight.value] else a.flights
    {
      hide A.Pruned, A.ConfirmError, A.ApproverError, A.Verify, A.AlreadyApproved, LiveGate.View, LiveStore.Value;
      flight, held := None, None;
      PruneBudgets(pruneAt);
      ghost var a1 := a.(budgets := A.Pruned(a.budgets, pruneAt));
      if id !in challenges { return A.Stop(A.NotStarted), None, None; }
      var wrong := A.ApproverError(challenges[id], actor);
      if wrong.Some? { return A.Stop(wrong.value), None, None; }
      assert a1.history.store.requests == store.requests && a1.world.gate.requests == gate.requests by { SameMaps(a1); }
      if id !in store.requests { return A.Stop(A.Unknown), None, None; }
      if id !in gate.requests { return A.Stop(A.NoCommit), None, None; }
      var record := gate.requests[id];
      if record.status == Approved && record.commit.Some? {
        reply, held := FindApproved(id, now, a1);
        return;
      }
      var early := A.ConfirmError(record, challenges[id], input, now);
      if early.Some? { return A.Stop(early.value), None, None; }
      reply, flight := VerifyLocked(id, actor, input, now, a1, t);
    }

    lemma SameMaps(a: A.Adapter)
      requires Shows(a)
      ensures a.history.store.requests == store.requests && a.world.gate.requests == gate.requests
    {
    }

    /** The credential part: a cached proof, a refusal, or a verification to run. */
    method VerifyLocked(id: string, actor: Actor, input: A.Input, now: Time, ghost a: A.Adapter, ghost t: nat)
      returns (reply: A.Reply, flight: Option<A.Flight>)
      requires Shows(a) && a.clock == now && id in challenges
      modifies this
      ensures var (a', r) := A.Verify(a, t, id, actor, input);
        && Shows(a') && reply == r && a'.locked == a.locked
        && a'.flights == if flight.Some? then a.flights[t := flight.value] else a.flights
    {
      hide A.ValidProof, LiveGate.View, LiveStore.Value;
      var state, key := challenges[id], A.BudgetKey(actor);
      if state.step >= 2 && now < state.proofExpiresAt && A.ValidProof(state.proof) {
        return A.Continues, Some(A.Proven(id, actor, input, state.proof, now));
      }
      var budget := A.Budget(0, false, now + A.LOCK_WINDOW, now);
      if key !in credentialBudgets {
        if |credentialBudgets| >= A.MAX_BUDGETS { return A.Stop(A.BudgetsFull), None; }
      } else if credentialBudgets[key].verifying || now < credentialBudgets[key].expiresAt {
        budget := credentialBudgets[key].(lastSeen := now);
      }
      if state.failures >= A.MAX_FAILURES || budget.failures >= A.MAX_FAILURES { return A.Stop(A.LockedOut), None; }
      if state.verifying || budget.verifying { return A.Stop(A.Busy), None; }
      if !credentialVerifier { return A.Stop(A.NoVerifier), None; }
      challenges := challenges[id := state.(verifying := true)];
      credentialBudgets := credentialBudgets[key := budget.(verifying := true)];
      return A.Continues, Some(A.Verifying(id, actor, input, key, now));
    }

    /** ConfirmContext after the verifier has answered. */
    method VerdictLocked(f: A.Flight, verdict: Option<A.Proof>, now: Time, ghost a: A.Adapter, ghost t: nat)
      returns (reply: A.Reply, flight: Option<A.Flight>)
      requires Shows(a) && t in a.flights && a.flights[t] == f && f.Verifying? && a.clock == now
      modifies this
      ensures var (a', r) := A.Verdict(a, t, verdict);
        && Shows(a') && reply == r && a'.locked == a.locked
        && a'.flights == if flight.Some? then a.flights[t := flight.value] else a.flights - {t}
    {
      hide A.ValidProof, A.ChallengeAt, A.BudgetAt, LiveGate.View, LiveStore.Value;
      var state := A.ChallengeAt(challenges, f.id).(verifying := false);
      var budget := A.BudgetAt(credentialBudgets, f.key).(verifying := false, lastSeen := now);
      if verdict.None? || !A.ValidProof(verdict.value) {
        challenges := challenges[f.id := state.(failures := state.failures + 1)];
        credentialBudgets :=
          credentialBudgets[f.key := budget.(failures := budget.failures + 1, expiresAt := f.now + A.LOCK_WINDOW)];
        return A.Stop(if verdict.None? then A.CredentialRejected else A.ProofInvalid), None;
      }
      challenges := challenges[f.id := state];
      credentialBudgets := credentialBudgets[f.key := budget];
      return A.Continues, Some(A.Proven(f.id, f.actor, f.input, verdict.value, now));
    }

    /** confirmWithProof up to the store's approval. */
    method ConfirmWithProof(f: A.Flight, now: Time, refuse: bool, ghost a: A.Adapter, ghost t: nat)
      returns (reply: A.Reply, held: Option<A.Held>)
      requires Shows(a) && a.locked.None? && t in a.flights && a.flights[t] == f && f.Proven?
      modifies this, gate, gate.persistence
      ensures var (a', r) := A.ConfirmEnd(a, t, now, refuse); Shows(a') && reply == r && a'.locked == held
    {
      hide A.ApproverError, A.AskGate, A.AlreadyApproved, LiveGate.View, LiveStore.Value;
      held := None;
      var id := f.id;
      ghost var a1 := a.(flights := a.flights - {t});
      if id !in challenges { return A.Stop(A.NotStarted), None; }
      var wrong := A.ApproverError(challenges[id], f.actor);
      if wrong.Some? { return A.Stop(wrong.value), None; }
      assert a1.history.store.requests == store.requests && a1.world.gate.requests == gate.requests by { SameMaps(a); }
      if id !in store.requests { return A.Stop(A.Unknown), None; }
      if id !in gate.requests { return A.Stop(A.NoCommit), None; }
      var record := gate.requests[id];
      if record.status == Approved && record.commit.Some? {
        reply, held := FindApproved(id, now, a1);
        return;
      }
      if record.status != Pending { return A.Stop(A.NotWaiting), None; }
      reply, held := ForwardToGate(f, now, refuse, a1);
    }

    method ForwardToGate(f: A.Flight, now: Time, refuse: bool, ghost a: A.Adapter) returns (reply: A.Reply, held: Option<A.Held>)
      requires Shows(a) && a.locked.None? && f.Proven? && f.id in challenges && f.id in gate.requests
      modifies this, gate, gate.persistence
      ensures f.id in a.world.gate.requests
      ensures var (a', r) := A.AskGate(a, f, now, refuse); Shows(a') && reply == r && a'.locked == held
    {
      hide G.Confirm, A.GateConfirmation, LiveGate.View, LiveGate.State, LiveStore.Value;
      SameMaps(a);
      held := None;
      var state := challenges[f.id];
      var confirmation := A.GateConfirmation(state, f.actor, f.input, f.proof, policyEpoch, gate.requests[f.id].request.nonce);
      var answer := GateConfirm(now, f.id, confirmation, refuse, a);
      if answer == Err(ThirdConfirmation) {
        challenges := challenges[f.id := state.(step := 2, needsThird := true, proof := f.proof, proofExpiresAt := now + A.PROOF_TTL)];
        return A.GateSays(ThirdConfirmation), None;
      }
      if answer.Err? { return A.GateSays(answer.error), None; }
      challenges := challenges[f.id := state.(step := 3, needsThird := false, proof := A.NO_PROOF, proofExpiresAt := 0)];
      return A.Continues, Some(A.ApproveNext(f.id, state.approver, A.Return));
    }

    /** What execution and completion find out under the lock; nothing changes yet. */
    method CheckCommit(id: string, ghost a: A.Adapter) returns (error: Option<A.AdapterError>)
      requires Shows(a)
      ensures error == A.CommitError(a, id)
      ensures error.None? ==> id in challenges && id in gate.requests && gate.requests[id].commit.Some?
    {
      hide LiveStore.Value;
      if id !in challenges { return Some(A.NotStarted); }
      if id !in gate.requests { return Some(A.NoCommit); }
      var record := gate.requests[id];
      if record.status != Approved || !A.CommitFits(record, challenges[id]) { return Some(A.NoCommit); }
      return None;
    }

    /** BeginExecutionForWithPreview up to its two store calls. */
    method ExecuteLocked(id: string, tool: string, args: string, preview: string, actor: Actor, now: Time, ghost a: A.Adapter)
      returns (reply: A.Reply, held: Option<A.Held>)
      requires Shows(a) && a.locked.None?
      ensures A.ExecuteStart(a, id, tool, args, preview, actor, now) == (a.(locked := held), reply)
    {
      hide A.CommitFits;
      var error := CheckCommit(id, a);
      if error.Some? { return A.Stop(error.value), None; }
      if gate.requests[id].commit.value.expiresAt <= now { return A.Stop(A.Late), None; }
      return A.Continues, Some(A.ApproveNext(id, challenges[id].approver, A.ThenBegin(tool, args, preview, actor)));
    }

    /** finishExecution up to its store call; the commit may have expired meanwhile. */
    method FinishLocked(id: string, succeeded: bool, actor: Actor, ghost a: A.Adapter)
      returns (reply: A.Reply, held: Option<A.Held>)
      requires Shows(a) && a.locked.None?
      ensures A.FinishStart(a, id, succeeded, actor) == (a.(locked := held), reply)
    {
      hide A.CommitError;
      var error := CheckCommit(id, a);
      if error.Some? { return A.Stop(error.value), None; }
      return A.Continues, Some(A.FinishNext(id, succeeded, actor));
    }

    /** RejectFor up to the store's rejection. */
    method RejectLocked(id: string, actor: Actor, reason: string, refuse: bool, now: Time, ghost a: A.Adapter)
      returns (reply: A.Reply, held: Option<A.Held>)
      requires Shows(a) && a.locked.None? && a.clock == now
      modifies this, gate, gate.persistence
      ensures var (a', r) := A.RejectStart(a, id, actor, reason, refuse); Shows(a') && reply == r && a'.locked == held
    {
      hide G.Revoke, LiveGate.View, LiveGate.State, LiveStore.Value;
      var text := if reason == "" then A.DEFAULT_REASON else reason;
      if id in challenges {
        var revoked := GateRevoke(now, id, actor.subject, text, refuse, a);
        if revoked.Fail? && revoked.error != RevokedError && revoked.error != ExpiredError {
          return A.GateSays(revoked.error), None;
        }
        challenges := challenges - {id};
      }
      bindings := bindings - {id};
      return A.Continues, Some(A.RejectNext(id, actor));
    }

    /** The store call made under the lock. */
    method CallStore(h: A.Held, now: Time, write: Write, ghost a: A.Adapter) returns (answer: Answer, held: Option<A.Held>)
      requires Shows(a) && store.Valid() && a.locked == Some(h) && a.clock == now
      modifies this, store
      ensures store.Valid()
      ensures var (a', r) := A.HeldStep(a, write); Shows(a') && r == A.StoreSays(answer) && a'.locked == held
    {
      hide Approve, Begin, Finish, Reject, LiveStore.Value, LiveStore.Valid, LiveGate.View;
      match h {
        case ApproveNext(id, approver, _) => answer := store.ApproveFor(id, approver, true, now, write);
        case BeginNext(id, tool, args, preview, actor) =>
          answer := store.BeginExecution(id, tool, args, preview, actor, true, now, write);
        case FinishNext(id, succeeded, actor) => answer := store.FinishExecution(id, succeeded, actor, true, now, write);
        case RejectNext(id, actor) => answer := store.RejectFor(id, actor, now, write);
      }
      held := A.StillHeld(h, answer);
      challenges := A.Confirmed(challenges, h, answer);
    }
  }
}
