/** What every interleaving of adapter calls, store calls and clock ticks keeps. */
module ToolAdapterSafety {
  import opened Wrappers
  import opened ApprovalTypes
  import opened ApprovalRules
  import opened ToolStore
  import opened ToolAdapter
  import opened ToolAdapterGate
  import G = ApprovalGate
  import I = GateInvariant
  import T = GateTheorems
  import S = ToolStoreSafety

  type Records = map<string, Record>

  // ----- the invariant, part by part

  /** A gate record belongs to the tool request it was submitted for. */
  ghost predicate Linked(r: Record, created: ToolRequest) {
    && r.request.risk == High && !r.request.preApproved && created.sensitivity == Destructive
    && r.request.actor == created.requester.subject && r.request.sessionID == created.requester.sessionID
    && r.request.scope == ToolScope(created.toolName) && r.request.intentDigest == ToolIntent(created)
    && r.expiresAt == created.expiresAt
  }

  /** The warning a confirmation answers is the one the server started on submission. */
  ghost predicate Warned(r: Record) {
    r.confirmation.confirmationID != "" ==> r.confirmation.warningReadAt == r.submittedAt
  }

  ghost predicate Links(records: Records, created: Requests) {
    forall id | id in records :: id in created && Linked(records[id], created[id]) && Warned(records[id])
  }

  /** Every challenge has its gate record, and a record without a live challenge is revoked. */
  ghost predicate Covers(challenges: map<string, Challenge>, records: Records) {
    && (forall id | id in challenges ::
          id in records && (challenges[id].warningStartedAt == records[id].submittedAt || records[id].status == Revoked))
    && (forall id | id in records && id !in challenges :: records[id].status == Revoked)
  }

  ghost predicate Scopes(bindings: map<string, Binding>) {
    forall id | id in bindings :: bindings[id].scope == ToolScope(bindings[id].tool)
  }

  /** What a call in flight remembers is still true, and its times are past. */
  ghost predicate Timely(f: Flight, records: Records, created: Requests, clock: Time) {
    match f
    case Created(_, _) => true
    case Asked(id, r, _, _) => id in created && S.SameIntent(r, created[id]) && r.sensitivity == Destructive
    case Opening(id, r, _, _, now) =>
      && id in created && S.SameIntent(r, created[id]) && r.sensitivity == Destructive
      && 0 < now <= clock && now < r.expiresAt
    case Verifying(id, _, _, _, now) => id in records && records[id].submittedAt <= now <= clock
    case Proven(id, _, _, _, since) => id in records && records[id].submittedAt <= since <= clock
  }

  ghost predicate AllTimely(flights: map<nat, Flight>, records: Records, created: Requests, clock: Time) {
    forall t | t in flights :: Timely(flights[t], records, created, clock)
  }

  /** A verification in flight holds its budget, and its challenge while there is one. */
  ghost predicate Guarded(f: Flight, budgets: map<string, Budget>, challenges: map<string, Challenge>) {
    f.Verifying? ==>
      && f.key in budgets && budgets[f.key].verifying && budgets[f.key].failures < MAX_FAILURES
      && (f.id in challenges ==> challenges[f.id].verifying && challenges[f.id].failures < MAX_FAILURES)
  }

  ghost predicate AllGuarded(flights: map<nat, Flight>, budgets: map<string, Budget>, challenges: map<string, Challenge>) {
    forall t | t in flights :: Guarded(flights[t], budgets, challenges)
  }

  /** No two verifications share a budget or a challenge. */
  ghost predicate Apart(f: Flight, f': Flight) {
    f.Verifying? && f'.Verifying? ==> f.key != f'.key && f.id != f'.id
  }

  ghost predicate AllApart(flights: map<nat, Flight>) {
    forall t, t' | t in flights && t' in flights && t != t' :: Apart(flights[t], flights[t'])
  }

  ghost predicate Limits(budgets: map<string, Budget>, challenges: map<string, Challenge>) {
    && |budgets| <= MAX_BUDGETS && (forall k | k in budgets :: budgets[k].failures <= MAX_FAILURES)
    && (forall id | id in challenges :: challenges[id].failures <= MAX_FAILURES)
  }

  /** The gate has approved request id and the commit fits the challenge. */
  ghost predicate Cleared(id: string, challenges: map<string, Challenge>, records: Records) {
    && id in challenges && id in records && records[id].status == Approved
    && CommitFits(records[id], challenges[id])
  }

  /** Whoever holds the lock to begin execution found the gate's approval. */
  ghost predicate Holds(locked: Option<Held>, challenges: map<string, Challenge>, records: Records) {
    locked.Some? && (locked.value.BeginNext? || (locked.value.ApproveNext? && locked.value.goal.ThenBegin?)) ==>
      Cleared(locked.value.id, challenges, records)
  }

  ghost predicate Inv(a: Adapter) {
    && 0 < a.clock && I.Inv(a.world, a.clock) && S.Inv(a.history)
    && Links(a.world.gate.requests, a.history.created) && Covers(a.challenges, a.world.gate.requests)
    && Scopes(a.bindings) && AllTimely(a.flights, a.world.gate.requests, a.history.created, a.clock)
    && AllGuarded(a.flights, a.budgets, a.challenges) && AllApart(a.flights) && Limits(a.budgets, a.challenges)
    && Holds(a.locked, a.challenges, a.world.gate.requests)
  }

  // ----- one part at a time

  lemma OneFlight(a: Adapter, t: nat)
    requires Inv(a) && t in a.flights
    ensures Timely(a.flights[t], a.world.gate.requests, a.history.created, a.clock)
    ensures Guarded(a.flights[t], a.budgets, a.challenges)
  {
    hide I.Inv, S.Inv, Links, Covers, Scopes, AllApart, Limits, Holds, Timely, Guarded;
  }

  lemma OneChallenge(a: Adapter, id: string)
    requires Inv(a) && id in a.challenges
    ensures id in a.world.gate.requests && Warned(a.world.gate.requests[id]) && a.challenges[id].failures <= MAX_FAILURES
    ensures a.world.gate.requests[id].status != Revoked ==>
      a.challenges[id].warningStartedAt == a.world.gate.requests[id].submittedAt
  {
    hide I.Inv, S.Inv, Scopes, AllTimely, AllGuarded, AllApart, Holds, Linked, Warned;
  }

  // ----- flights come and go

  lemma LandedFlights(a: Adapter, t: nat)
    requires AllTimely(a.flights, a.world.gate.requests, a.history.created, a.clock)
    requires AllGuarded(a.flights, a.budgets, a.challenges) && AllApart(a.flights)
    ensures var rest := a.flights - {t};
      && AllTimely(rest, a.world.gate.requests, a.history.created, a.clock)
      && AllGuarded(rest, a.budgets, a.challenges) && AllApart(rest)
  {
    hide Timely, Guarded, Apart;
  }

  /** A new flight that verifies nothing only has to be timely. */
  lemma AddedFlight(a: Adapter, t: nat, f: Flight)
    requires AllTimely(a.flights, a.world.gate.requests, a.history.created, a.clock)
    requires AllGuarded(a.flights, a.budgets, a.challenges) && AllApart(a.flights)
    requires !f.Verifying? && Timely(f, a.world.gate.requests, a.history.created, a.clock)
    ensures var more := a.flights[t := f];
      && AllTimely(more, a.world.gate.requests, a.history.created, a.clock)
      && AllGuarded(more, a.budgets, a.challenges) && AllApart(more)
  {
    hide Timely;
  }

  // ----- ticks and store calls

  lemma TickKeepsInv(a: Adapter, now: Time)
    requires Inv(a) && a.clock <= now
    ensures Inv(a.(clock := now))
  {
    T.InvLater(a.world, a.clock, now);
    hide I.Inv, S.Inv, Links, Covers, Scopes, AllGuarded, AllApart, Limits, Holds;
  }

  /** Requests are only ever added to the history. */
  lemma HistoryGrows(a: Adapter, h: S.History)
    requires Links(a.world.gate.requests, a.history.created)
    requires AllTimely(a.flights, a.world.gate.requests, a.history.created, a.clock)
    requires forall id | id in a.history.created :: id in h.created && h.created[id] == a.history.created[id]
    ensures Links(a.world.gate.requests, h.created)
    ensures AllTimely(a.flights, a.world.gate.requests, h.created, a.clock)
  {
    hide Linked, Warned, S.SameIntent;
  }

  lemma StoreKeepsInv(a: Adapter, call: S.Op)
    requires Inv(a) && S.Possible(a.history, call)
    ensures Inv(a.(history := S.Next(a.history, call)))
  {
    hide I.Inv, Links, Covers, Scopes, AllTimely, AllGuarded, AllApart, Limits, Holds, S.Call, S.Inv;
    S.NextKeepsInv(a.history, call);
    HistoryGrows(a, S.Next(a.history, call));
  }

  // ----- creating and opening

  lemma CreateStartKeepsInv(a: Adapter, t: nat, call: S.Op)
    requires Inv(a) && call.CreateOp? && S.Possible(a.history, call)
    ensures Inv(CreateStart(a, t, call).0)
  {
    StoreKeepsInv(a, call);
    hide I.Inv, S.Inv, Links, Covers, Scopes, AllTimely, AllGuarded, AllApart, Limits, Holds, S.Call, S.Next, S.Possible;
    AddedFlight(a.(history := S.Next(a.history, call)), t, Created(call.request, call.request.requester));
  }

  lemma BindKeepsInv(a: Adapter, t: nat)
    requires Inv(a) && t in a.flights && a.flights[t].Created?
    ensures Inv(Bind(a, t).0)
  {
    hide I.Inv, S.Inv, Links, Covers, AllTimely, AllGuarded, AllApart, Limits, Holds, ToolScope;
    LandedFlights(a, t);
  }

  lemma OpenReadKeepsInv(a: Adapter, t: nat, id: string, actor: Actor, language: string)
    requires Inv(a)
    ensures Inv(OpenRead(a, t, id, actor, language).0)
  {
    hide I.Inv, S.Inv, Links, Covers, Scopes, AllTimely, AllGuarded, AllApart, Limits, Holds, NormalizeLanguage,
      ActorError, S.SameIntent;
    if OpenRead(a, t, id, actor, language).1.Continues? {
      StoredAsCreated(a.history, id);
      AddedFlight(a, t, OpenRead(a, t, id, actor, language).0.flights[t]);
    }
  }

  lemma OpenClockKeepsInv(a: Adapter, t: nat)
    requires Inv(a) && t in a.flights && a.flights[t].Asked?
    ensures Inv(OpenClock(a, t).0)
  {
    hide I.Inv, S.Inv, Links, Covers, Scopes, AllTimely, AllGuarded, AllApart, Limits, Holds, S.SameIntent;
    OneFlight(a, t);
    LandedFlights(a, t);
    if OpenClock(a, t).1.Continues? { AddedFlight(a, t, OpenClock(a, t).0.flights[t]); }
  }

  lemma StoredAsCreated(h: S.History, id: string)
    requires S.Inv(h) && id in h.store.requests
    ensures id in h.created && S.SameIntent(h.store.requests[id], h.created[id])
  {
    hide S.SameIntent, S.Spent;
  }

  /** The binding an opening uses, stored or rebuilt, has its tool's scope. */
  lemma OpeningScope(a: Adapter, f: Flight)
    requires Scopes(a.bindings) && f.Opening?
    ensures var b := OpeningBinding(a, f); b.scope == ToolScope(b.tool) && Scopes(a.bindings[f.id := b])
  {
    hide ToolScope, ToolIntent;
  }

  /** What the gate stored for an opening is linked to the tool request. */
  lemma OpenedLink(w: G.World, f: Flight, b: Binding, epoch: nat, created: ToolRequest)
    requires f.Opening? && BindingFits(b, f.request) && b.scope == ToolScope(b.tool)
    requires S.SameIntent(f.request, created) && f.request.sensitivity == Destructive && f.now < f.request.expiresAt
    requires G.AdmitRequest(w.gate, OpeningRequest(f, b, epoch)).Ok?
    ensures var r := G.NewRecord(f.now, G.AdmitRequest(w.gate, OpeningRequest(f, b, epoch)).value);
      Linked(r, created) && Warned(r) && r.submittedAt == f.now
  {
    hide G.AdmitRequest, G.NewRecord, ToolScope;
    HighRiskRecord(w.gate, f.now, OpeningRequest(f, b, epoch));
  }

  lemma NewLink(records: Records, created: Requests, id: string, r: Record)
    requires Links(records, created) && id in created && Linked(r, created[id]) && Warned(r)
    ensures Links(records[id := r], created)
  {
    hide Linked, Warned;
  }

  /** A record and its challenge appear together. */
  lemma NewChallenge(a: Adapter, id: string, r: Record, c: Challenge)
    requires id !in a.world.gate.requests && id !in a.challenges
    requires Covers(a.challenges, a.world.gate.requests) && Limits(a.budgets, a.challenges)
    requires AllTimely(a.flights, a.world.gate.requests, a.history.created, a.clock)
    requires AllGuarded(a.flights, a.budgets, a.challenges)
    requires c.warningStartedAt == r.submittedAt && c.failures == 0
    ensures var records, challenges := a.world.gate.requests[id := r], a.challenges[id := c];
      && Covers(challenges, records) && Limits(a.budgets, challenges)
      && AllTimely(a.flights, records, a.history.created, a.clock) && AllGuarded(a.flights, a.budgets, challenges)
  {
    hide S.SameIntent;
  }

  lemma OpenKeepsInv(a: Adapter, t: nat, newID: string, refuse: bool)
    requires Inv(a) && a.locked.None? && t in a.flights && a.flights[t].Opening?
    ensures Inv(Open(a, t, newID, refuse).0)
  {
    var f := a.flights[t];
    var b := OpeningBinding(a, f);
    OneFlight(a, t);
    hide S.SameIntent, I.Inv, S.Inv, Links, Covers, Scopes, AllTimely, AllGuarded, AllApart, Limits, Linked, Warned,
      G.Submit, PhraseOf;
    OpeningScope(a, f);
    hide ToolScope, OpeningBinding;
    LandedFlights(a, t);
    var a1 := a.(flights := a.flights - {t}, bindings := a.bindings[f.id := b]);
    if BindingFits(b, f.request) && f.id !in a.challenges {
      var raw := OpeningRequest(f, b, a.epoch);
      T.SubmitKeepsInv(a.world, f.now, raw, refuse, a.clock);
      SubmitRecords(a.world, f.now, raw, refuse);
      var submitted := G.Submit(a.world, f.now, raw, refuse).1;
      if submitted.Ok? {
        OpenedLink(a.world, f, b, a.epoch, a.history.created[f.id]);
        NewLink(a.world.gate.requests, a.history.created, f.id, submitted.value);
        NewChallenge(a1, f.id, submitted.value, Open(a, t, newID, refuse).1.challenge);
      }
    }
    hide BindingFits, OpeningRequest, G.AdmitRequest, G.NewRecord, Timely;
  }

  // ----- confirming

  lemma PruneKeepsInv(a: Adapter, now: Time)
    requires Inv(a)
    ensures Inv(a.(budgets := Pruned(a.budgets, now)))
  {
    hide I.Inv, S.Inv, Links, Covers, Scopes, AllTimely, AllApart, Holds;
    PruneShrinks(a.budgets, now);
  }

  lemma PruneShrinks(budgets: map<string, Budget>, now: Time)
    ensures |Pruned(budgets, now)| <= |budgets|
  {
    SmallerMap(Pruned(budgets, now).Keys, budgets.Keys);
  }

  lemma {:induction false} SmallerMap(x: set<string>, y: set<string>)
    requires x <= y
    ensures |x| <= |y|
  {
    if x != {} {
      var k :| k in x;
      SmallerMap(x - {k}, y - {k});
    }
  }

  /** A challenge that keeps its warning, its failures and its verification. */
  ghost predicate Similar(c: Challenge, c': Challenge) {
    c'.warningStartedAt == c.warningStartedAt && c'.failures == c.failures && c'.verifying == c.verifying
  }

  lemma ChallengeMoves(a: Adapter, records: Records, id: string, c: Challenge)
    requires id in a.challenges && Similar(a.challenges[id], c)
    requires Covers(a.challenges, records) && AllGuarded(a.flights, a.budgets, a.challenges) && Limits(a.budgets, a.challenges)
    ensures var m := a.challenges[id := c];
      Covers(m, records) && AllGuarded(a.flights, a.budgets, m) && Limits(a.budgets, m)
  {
  }

  lemma SubmittedBefore(w: G.World, clock: Time, id: string)
    requires I.Inv(w, clock) && id in w.gate.requests
    ensures w.gate.requests[id].submittedAt <= clock
  {
    hide ValidateRecord, I.SoundConfirmation, I.SoundApproval, I.Trail, I.EventsBelong, I.UsedMatchesLog, I.OwnersMatchLog,
      I.Mirrors;
    assert I.GoodRecord(w.gate.requests[id], w.gate.policyEpoch, clock);
  }

  lemma AlreadyApprovedKeepsInv(a: Adapter, id: string, now: Time)
    requires Inv(a) && id in a.challenges && id in a.history.store.requests && id in a.world.gate.requests
    requires a.world.gate.requests[id].commit.Some? && a.locked.None?
    ensures Inv(AlreadyApproved(a, id, now).0)
  {
    hide I.Inv, S.Inv, Links, Covers, Scopes, AllTimely, AllGuarded, AllApart, Limits, CommitFits;
  }

  lemma GuardVerifying(a: Adapter, t: nat, id: string, f: Flight, b: Budget)
    requires f.Verifying? && f.id == id && t !in a.flights && id in a.challenges
    requires AllGuarded(a.flights, a.budgets, a.challenges)
    requires b == BudgetFor(a.budgets, f.key, a.clock) && b.failures < MAX_FAILURES && !b.verifying
    requires a.challenges[id].failures < MAX_FAILURES && !a.challenges[id].verifying
    ensures AllGuarded(a.flights[t := f], a.budgets[f.key := b.(verifying := true)],
                       a.challenges[id := a.challenges[id].(verifying := true)])
  {
  }

  lemma ApartVerifying(a: Adapter, t: nat, id: string, f: Flight)
    requires f.Verifying? && f.id == id && t !in a.flights && id in a.challenges
    requires AllGuarded(a.flights, a.budgets, a.challenges) && AllApart(a.flights)
    requires !BudgetFor(a.budgets, f.key, a.clock).verifying && !a.challenges[id].verifying
    ensures AllApart(a.flights[t := f])
  {
    forall t' | t' in a.flights
      ensures Apart(f, a.flights[t']) && Apart(a.flights[t'], f)
    {
      assert Guarded(a.flights[t'], a.budgets, a.challenges);
    }
    hide Guarded, Apart;
  }

  lemma LimitVerifying(a: Adapter, id: string, key: string, b: Budget)
    requires Limits(a.budgets, a.challenges) && id in a.challenges && b.failures <= MAX_FAILURES
    requires key !in a.budgets ==> |a.budgets| < MAX_BUDGETS
    ensures Limits(a.budgets[key := b], a.challenges[id := a.challenges[id].(verifying := true)])
  {
    BudgetCount(a.budgets, key, b);
  }

  lemma BudgetCount(budgets: map<string, Budget>, key: string, b: Budget)
    ensures |budgets[key := b]| == |budgets| + if key in budgets then 0 else 1
  {
    if key in budgets { assert budgets[key := b].Keys == budgets.Keys; }
    else { assert budgets[key := b].Keys == budgets.Keys + {key}; }
  }

  lemma VerifyKeepsInv(a: Adapter, t: nat, id: string, actor: Actor, input: Input)
    requires Inv(a) && id in a.challenges && id in a.world.gate.requests && t !in a.flights && a.locked.None?
    ensures Inv(Verify(a, t, id, actor, input).0)
  {
    hide I.Inv, S.Inv, Links, Scopes, AllTimely, AllGuarded, AllApart, Limits, ValidProof, BudgetFor;
    SubmittedBefore(a.world, a.clock, id);
    var c, key := a.challenges[id], BudgetKey(actor);
    if CachedProof(c, a.clock) {
      AddedFlight(a, t, Proven(id, actor, input, c.proof, a.clock));
    } else if BudgetError(a, key, c, a.clock).None? {
      var f, b := Verifying(id, actor, input, key, a.clock), BudgetFor(a.budgets, key, a.clock);
      GuardVerifying(a, t, id, f, b);
      ApartVerifying(a, t, id, f);
      LimitVerifying(a, id, key, b.(verifying := true));
      TimelyWith(a, t, f);
    }
  }

  lemma TimelyWith(a: Adapter, t: nat, f: Flight)
    requires AllTimely(a.flights, a.world.gate.requests, a.history.created, a.clock)
    requires Timely(f, a.world.gate.requests, a.history.created, a.clock)
    ensures AllTimely(a.flights[t := f], a.world.gate.requests, a.history.created, a.clock)
  {
    hide Timely;
  }

  lemma ConfirmStartKeepsInv(a: Adapter, t: nat, id: string, actor: Actor, input: Input, pruneAt: Time)
    requires Inv(a) && a.locked.None? && t !in a.flights
    ensures Inv(ConfirmStart(a, t, id, actor, input, pruneAt).0)
  {
    hide Inv, Pruned, AlreadyApproved, Verify, ConfirmError, ApproverError;
    PruneKeepsInv(a, pruneAt);
    var a1 := a.(budgets := Pruned(a.budgets, pruneAt));
    if id in a1.challenges && id in a1.history.store.requests && id in a1.world.gate.requests {
      if a1.world.gate.requests[id].commit.Some? { AlreadyApprovedKeepsInv(a1, id, a1.clock); }
      VerifyKeepsInv(a1, t, id, actor, input);
    }
  }

  /** What a verdict writes back to the challenge and the budget. */
  ghost predicate Settled(a: Adapter, f: Flight, c: Challenge, b: Budget) {
    && f.Verifying? && !c.verifying && !b.verifying && c.failures <= MAX_FAILURES && b.failures <= MAX_FAILURES
    && c.warningStartedAt == (if f.id in a.challenges then a.challenges[f.id].warningStartedAt else 0)
  }

  lemma VerdictGuards(a: Adapter, t: nat, f': Flight, c: Challenge, b: Budget)
    requires t in a.flights && Settled(a, a.flights[t], c, b) && !f'.Verifying?
    requires AllGuarded(a.flights, a.budgets, a.challenges) && AllApart(a.flights)
    ensures var f := a.flights[t]; var budgets, challenges := a.budgets[f.key := b], a.challenges[f.id := c];
      AllGuarded(a.flights[t := f'], budgets, challenges) && AllGuarded(a.flights - {t}, budgets, challenges)
  {
    var f := a.flights[t];
    forall t' | t' in a.flights && t' != t
      ensures Guarded(a.flights[t'], a.budgets[f.key := b], a.challenges[f.id := c])
    {
      assert Apart(f, a.flights[t']) && Guarded(a.flights[t'], a.budgets, a.challenges);
    }
    hide Apart;
  }

  lemma VerdictLimits(a: Adapter, f: Flight, c: Challenge, b: Budget)
    requires Settled(a, f, c, b) && Limits(a.budgets, a.challenges) && f.key in a.budgets
    ensures Limits(a.budgets[f.key := b], a.challenges[f.id := c])
  {
    BudgetCount(a.budgets, f.key, b);
  }

  lemma VerdictCovers(a: Adapter, f: Flight, c: Challenge, b: Budget)
    requires Settled(a, f, c, b) && Covers(a.challenges, a.world.gate.requests) && f.id in a.world.gate.requests
    ensures Covers(a.challenges[f.id := c], a.world.gate.requests)
  {
  }

  lemma VerdictFlights(a: Adapter, t: nat, f': Flight)
    requires !f'.Verifying? && Timely(f', a.world.gate.requests, a.history.created, a.clock)
    requires AllTimely(a.flights, a.world.gate.requests, a.history.created, a.clock) && AllApart(a.flights)
    ensures AllTimely(a.flights[t := f'], a.world.gate.requests, a.history.created, a.clock) && AllApart(a.flights[t := f'])
    ensures AllTimely(a.flights - {t}, a.world.gate.requests, a.history.created, a.clock) && AllApart(a.flights - {t})
  {
    hide Timely;
  }

  lemma VerdictSettles(a: Adapter, t: nat, verdict: Option<Proof>)
    requires Inv(a) && t in a.flights && a.flights[t].Verifying?
    ensures var f := a.flights[t]; var a' := Verdict(a, t, verdict).0;
      && f.id in a'.challenges && f.key in a'.budgets && Settled(a, f, a'.challenges[f.id], a'.budgets[f.key])
      && f.key in a.budgets && f.id in a.world.gate.requests && a.world.gate.requests[f.id].submittedAt <= a.clock
  {
    hide Inv, ValidProof;
    OneFlight(a, t);
    if a.flights[t].id in a.challenges { OneChallenge(a, a.flights[t].id); }
  }

  lemma VerdictKeepsInv(a: Adapter, t: nat, verdict: Option<Proof>)
    requires Inv(a) && a.locked.None? && t in a.flights && a.flights[t].Verifying?
    ensures Inv(Verdict(a, t, verdict).0)
  {
    hide I.Inv, S.Inv, Links, Covers, Scopes, AllTimely, AllGuarded, AllApart, ValidProof, Limits, Settled;
    VerdictSettles(a, t, verdict);
    var f, a' := a.flights[t], Verdict(a, t, verdict).0;
    var c, b := a'.challenges[f.id], a'.budgets[f.key];
    var f' := Proven(f.id, f.actor, f.input, if verdict.Some? then verdict.value else NO_PROOF, a.clock);
    VerdictGuards(a, t, f', c, b);
    VerdictLimits(a, f, c, b);
    VerdictCovers(a, f, c, b);
    VerdictFlights(a, t, f');
  }

  /** The gate moved one record and kept what the adapter relies on. */
  lemma RecordMoves(a: Adapter, records: Records, id: string)
    requires Touches(a.world.gate.requests, records, id) && id in records && Warned(records[id])
    requires Links(a.world.gate.requests, a.history.created) && Covers(a.challenges, a.world.gate.requests)
    requires AllTimely(a.flights, a.world.gate.requests, a.history.created, a.clock)
    ensures Links(records, a.history.created) && Covers(a.challenges, records)
    ensures AllTimely(a.flights, records, a.history.created, a.clock)
  {
    hide Linked, Warned, S.SameIntent;
    LinksMove(a.world.gate.requests, records, a.history.created, id);
    CoversMove(a.world.gate.requests, records, a.challenges, id);
    hide Links, Covers;
    forall t | t in a.flights
      ensures Timely(a.flights[t], records, a.history.created, a.clock)
    {
      TimelyMoves(a.flights[t], a.world.gate.requests, records, a.history.created, a.clock, id);
    }
    hide Timely;
  }

  lemma TimelyMoves(f: Flight, records: Records, records': Records, created: Requests, clock: Time, id: string)
    requires Timely(f, records, created, clock) && Touches(records, records', id)
    ensures Timely(f, records', created, clock)
  {
    hide S.SameIntent;
  }

  lemma LinksMove(records: Records, records': Records, created: Requests, id: string)
    requires Links(records, created) && Touches(records, records', id) && id in records' && Warned(records'[id])
    ensures Links(records', created)
  {
    hide ToolScope, ToolIntent;
    forall x | x in records'
      ensures x in created && Linked(records'[x], created[x]) && Warned(records'[x])
    {
      assert Linked(records[x], created[x]) && Warned(records[x]);
    }
    hide Linked, Warned;
  }

  lemma CoversMove(records: Records, records': Records, challenges: map<string, Challenge>, id: string)
    requires Covers(challenges, records) && Touches(records, records', id)
    ensures Covers(challenges, records')
  {
  }

  /** The gate's answer to a confirmation keeps what the adapter relies on. */
  lemma AskedGate(a: Adapter, f: Flight, now: Time, refuse: bool)
    requires Inv(a) && f.Proven? && f.id in a.challenges && f.id in a.world.gate.requests
    requires a.world.gate.requests[f.id].status == Pending && a.world.gate.requests[f.id].submittedAt <= now && 0 < now
    ensures var w := AskGate(a, f, now, refuse).0.world;
      && I.Inv(w, a.clock) && Links(w.gate.requests, a.history.created) && Covers(a.challenges, w.gate.requests)
      && AllTimely(a.flights, w.gate.requests, a.history.created, a.clock)
  {
    hide I.Inv, S.Inv, Links, Covers, Scopes, AllTimely, AllGuarded, AllApart, Limits, Holds, G.Confirm;
    OneChallenge(a, f.id);
    var records, c := a.world.gate.requests, a.challenges[f.id];
    var k := GateConfirmation(c, f.actor, f.input, f.proof, a.epoch, records[f.id].request.nonce);
    T.ConfirmKeepsInv(a.world, now, f.id, k, refuse, a.clock);
    ConfirmRecord(a.world, now, f.id, k, refuse);
    var w := G.Confirm(a.world, now, f.id, k, refuse).0;
    RecordMoves(a, w.gate.requests, f.id);
  }

  lemma AskedChallenge(a: Adapter, f: Flight, now: Time, refuse: bool)
    requires f.Proven? && f.id in a.challenges && f.id in a.world.gate.requests
    ensures var m := AskGate(a, f, now, refuse).0.challenges;
      f.id in m && m == a.challenges[f.id := m[f.id]] && Similar(a.challenges[f.id], m[f.id])
  {
    hide G.Confirm, GateConfirmation;
  }

  lemma AskGateKeepsInv(a: Adapter, f: Flight, now: Time, refuse: bool)
    requires Inv(a) && a.locked.None? && f.Proven? && f.id in a.challenges && f.id in a.world.gate.requests
    requires a.world.gate.requests[f.id].status == Pending && a.world.gate.requests[f.id].submittedAt <= now && 0 < now
    ensures Inv(AskGate(a, f, now, refuse).0)
  {
    hide I.Inv, S.Inv, Links, Covers, Scopes, AllTimely, AllGuarded, AllApart, Limits, G.Confirm, GateConfirmation, Similar;
    AskedGate(a, f, now, refuse);
    AskedChallenge(a, f, now, refuse);
    var a' := AskGate(a, f, now, refuse).0;
    ChallengeMoves(a, a'.world.gate.requests, f.id, a'.challenges[f.id]);
  }

  lemma ProvenFlight(a: Adapter, t: nat)
    requires Inv(a) && t in a.flights && a.flights[t].Proven?
    ensures var f := a.flights[t]; var records := a.world.gate.requests;
      f.id in records && 0 < records[f.id].submittedAt <= f.since
  {
    hide I.Inv, S.Inv, Links, Covers, AllTimely, AllGuarded, AllApart, Limits, Holds, Scopes;
    OneFlight(a, t);
    PositiveSubmission(a.world, a.clock, a.flights[t].id);
  }

  lemma ConfirmEndKeepsInv(a: Adapter, t: nat, now: Time, refuse: bool)
    requires Inv(a) && a.locked.None? && t in a.flights && a.flights[t].Proven? && a.flights[t].since <= now
    ensures Inv(ConfirmEnd(a, t, now, refuse).0)
  {
    hide Inv, AlreadyApproved, AskGate, ApproverError;
    var f, a1 := a.flights[t], a.(flights := a.flights - {t});
    LandedKeepsInv(a, t);
    ProvenFlight(a, t);
    if f.id in a1.challenges && f.id in a1.history.store.requests {
      if a1.world.gate.requests[f.id].commit.Some? { AlreadyApprovedKeepsInv(a1, f.id, now); }
      if a1.world.gate.requests[f.id].status == Pending { AskGateKeepsInv(a1, f, now, refuse); }
    }
  }

  lemma LandedKeepsInv(a: Adapter, t: nat)
    requires Inv(a)
    ensures Inv(a.(flights := a.flights - {t}))
  {
    hide I.Inv, S.Inv, Links, Covers, Scopes, AllTimely, AllGuarded, AllApart, Limits, Holds;
    LandedFlights(a, t);
  }

  lemma PositiveSubmission(w: G.World, clock: Time, id: string)
    requires I.Inv(w, clock) && id in w.gate.requests
    ensures w.gate.requests[id].submittedAt > 0
  {
    hide ValidateRequest, I.SoundConfirmation, I.SoundApproval, I.Trail, I.EventsBelong, I.UsedMatchesLog,
      I.OwnersMatchLog, I.Mirrors, ValidateCommit, ConfirmationMatches;
    assert I.GoodRecord(w.gate.requests[id], w.gate.policyEpoch, clock);
  }

  // ----- executing, finishing, rejecting

  lemma ExecuteStartKeepsInv(a: Adapter, id: string, tool: string, args: string, preview: string, actor: Actor, now: Time)
    requires Inv(a) && a.locked.None?
    ensures Inv(ExecuteStart(a, id, tool, args, preview, actor, now).0)
  {
    hide I.Inv, S.Inv, Links, Covers, Scopes, AllTimely, AllGuarded, AllApart, Limits, CommitFits;
  }

  lemma FinishStartKeepsInv(a: Adapter, id: string, succeeded: bool, actor: Actor)
    requires Inv(a) && a.locked.None?
    ensures Inv(FinishStart(a, id, succeeded, actor).0)
  {
    hide I.Inv, S.Inv, Links, Covers, Scopes, AllTimely, AllGuarded, AllApart, Limits, CommitFits;
  }

  lemma ChallengeDropped(a: Adapter, records: Records, id: string)
    requires Covers(a.challenges, records) && id in records && records[id].status == Revoked
    requires AllGuarded(a.flights, a.budgets, a.challenges) && Limits(a.budgets, a.challenges)
    ensures var m := a.challenges - {id};
      Covers(m, records) && AllGuarded(a.flights, a.budgets, m) && Limits(a.budgets, m)
  {
  }

  lemma RevokedGate(a: Adapter, id: string, actor: Actor, reason: string, refuse: bool)
    requires Inv(a) && id in a.challenges
    ensures id in a.world.gate.requests
    ensures var (a', reply) := RejectStart(a, id, actor, reason, refuse); var records := a'.world.gate.requests;
      && I.Inv(a'.world, a.clock) && Links(records, a.history.created) && Covers(a.challenges, records)
      && AllTimely(a.flights, records, a.history.created, a.clock)
      && (reply.GateSays? ==> a' == a) && (reply.Continues? ==> id in records && records[id].status == Revoked)
  {
    hide I.Inv, S.Inv, Links, Covers, AllTimely, AllGuarded, AllApart, Limits, Holds, Scopes, G.Revoke;
    OneChallenge(a, id);
    var text := if reason == "" then DEFAULT_REASON else reason;
    T.RevokeKeepsInv(a.world, a.clock, id, actor.subject, text, refuse, a.clock);
    RevokeRecord(a.world, a.clock, id, actor.subject, text, refuse);
    RecordMoves(a, G.Revoke(a.world, a.clock, id, actor.subject, text, refuse).0.gate.requests, id);
  }

  lemma RejectStartKeepsInv(a: Adapter, id: string, actor: Actor, reason: string, refuse: bool)
    requires Inv(a) && a.locked.None?
    ensures Inv(RejectStart(a, id, actor, reason, refuse).0)
  {
    hide I.Inv, S.Inv, Links, Covers, AllTimely, AllGuarded, AllApart, Limits, Scopes, G.Revoke;
    ScopesDropped(a.bindings, id);
    if id in a.challenges {
      RevokedGate(a, id, actor, reason, refuse);
      var (a', reply) := RejectStart(a, id, actor, reason, refuse);
      if reply.Continues? { ChallengeDropped(a, a'.world.gate.requests, id); }
    }
  }

  lemma ScopesDropped(bindings: map<string, Binding>, id: string)
    requires Scopes(bindings)
    ensures Scopes(bindings - {id})
  {
  }

  // ----- under the lock

  lemma ConfirmedMoves(a: Adapter, h: Held, answer: Answer)
    requires Covers(a.challenges, a.world.gate.requests) && AllGuarded(a.flights, a.budgets, a.challenges)
    requires Limits(a.budgets, a.challenges)
    ensures var m := Confirmed(a.challenges, h, answer);
      Covers(m, a.world.gate.requests) && AllGuarded(a.flights, a.budgets, m) && Limits(a.budgets, m)
  {
    hide Covers, AllGuarded, Limits;
    if h.ApproveNext? && h.id in a.challenges {
      ChallengeMoves(a, a.world.gate.requests, h.id, a.challenges[h.id].(step := 3, needsThird := false));
    }
  }

  lemma StillHolds(a: Adapter, answer: Answer)
    requires a.locked.Some? && Holds(a.locked, a.challenges, a.world.gate.requests)
    ensures Holds(StillHeld(a.locked.value, answer), Confirmed(a.challenges, a.locked.value, answer), a.world.gate.requests)
  {
    hide CommitFits;
  }

  lemma HeldKeepsInv(a: Adapter, write: Write)
    requires Inv(a) && a.locked.Some?
    ensures Inv(HeldStep(a, write).0)
  {
    hide I.Inv, S.Inv, Links, Covers, Scopes, AllTimely, AllGuarded, AllApart, Limits, S.Call, S.Next, CommitFits, Holds,
      StillHeld, Confirmed;
    var h := a.locked.value;
    var op := HeldCall(h, a.clock, write);
    StoreKeepsInv(a, op);
    var answer := S.Call(a.history.store, op).1;
    hide HeldCall;
    ConfirmedMoves(a, h, answer);
    StillHolds(a, answer);
  }

  // ----- every step

  lemma StepKeepsInv(a: Adapter, op: Op)
    requires Inv(a) && Enabled(a, op)
    ensures Inv(Step(a, op).0)
  {
    hide CreateStart, Bind, OpenRead, OpenClock, Open, ConfirmStart, Verdict, ConfirmEnd, ExecuteStart, FinishStart, RejectStart,
      HeldStep, S.Possible, S.Next, S.Call;
    match op
    case TickOp(now) => TickKeepsInv(a, now);
    case VerifierOp(present) => VerifierKeepsInv(a, present);
    case StoreOp(call) => StoreKeepsInv(a, call);
    case CreateStartOp(t, call) => CreateStartKeepsInv(a, t, call);
    case BindOp(t) => BindKeepsInv(a, t);
    case OpenReadOp(t, id, actor, language) => OpenReadKeepsInv(a, t, id, actor, language);
    case OpenClockOp(t) => OpenClockKeepsInv(a, t);
    case OpenOp(t, newID, refuse) => OpenKeepsInv(a, t, newID, refuse);
    case ConfirmStartOp(t, id, actor, input, pruneAt) => ConfirmStartKeepsInv(a, t, id, actor, input, pruneAt);
    case VerdictOp(t, verdict) => VerdictKeepsInv(a, t, verdict);
    case ConfirmEndOp(t, now, refuse) => ConfirmEndKeepsInv(a, t, now, refuse);
    case ExecuteStartOp(id, tool, args, preview, actor, now) => ExecuteStartKeepsInv(a, id, tool, args, preview, actor, now);
    case FinishStartOp(id, succeeded, actor) => FinishStartKeepsInv(a, id, succeeded, actor);
    case RejectStartOp(id, actor, reason, refuse) => RejectStartKeepsInv(a, id, actor, reason, refuse);
    case HeldOp(write) => HeldKeepsInv(a, write);
    hide Inv;
  }

  lemma VerifierKeepsInv(a: Adapter, present: bool)
    requires Inv(a)
    ensures Inv(a.(verifier := present))
  {
    hide I.Inv, S.Inv, Links, Covers, Scopes, AllTimely, AllGuarded, AllApart, Limits, Holds;
  }
}
