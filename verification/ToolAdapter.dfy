/** The bridge from AI tool requests to the approval gate, as a transition system over its
    critical sections. The adapter's lock is released while credentials are verified and
    before the last part of several calls, so what a call knows in between is kept as a
    flight. While the adapter holds its lock and calls the store, other users of the store
    and the clock go on; `locked` is what the holder does next. */
module ToolAdapter {
  import opened Wrappers
  import opened ApprovalTypes
  import opened ApprovalRules
  import opened ToolStore
  import G = ApprovalGate
  import S = ToolStoreSafety

  const PROOF_TTL: nat := 60_000_000_000
  const MAX_FAILURES: nat := 5
  const LOCK_WINDOW: nat := 300_000_000_000
  const MAX_BUDGETS: nat := 1024

  datatype Proof = Proof(token: string, password: bool, totp: bool)

  const NO_PROOF := Proof("", false, false)

  predicate ValidProof(p: Proof) { ValidIdentifier(p.token) && (p.password || p.totp) }

  /** What the operator enters; passwords and codes go to the verifier only. */
  datatype Input = Input(second: bool, third: bool, phrase: string)

  datatype Binding = Binding(tool: string, scope: string, intent: Token, requester: Actor)

  datatype Challenge = Challenge(
    confirmationID: string, warningStartedAt: Time, expiresAt: Time, language: string, phrase: string,
    step: nat, needsThird: bool, approver: Actor, scope: string, intent: Token,
    proof: Proof, proofExpiresAt: Time, failures: nat, verifying: bool)

  /** Go's zero challenge, which an absent map key reads as. */
  const BLANK := Challenge("", 0, 0, "", "", 0, false, NOBODY, "", Literal(""), NO_PROOF, 0, 0, false)

  datatype Budget = Budget(failures: nat, verifying: bool, expiresAt: Time, lastSeen: Time)

  /** A call between two of its critical sections, and what it remembers. */
  datatype Flight =
    | Created(request: ToolRequest, actor: Actor)
    | Asked(id: string, request: ToolRequest, actor: Actor, language: string)
    | Opening(id: string, request: ToolRequest, actor: Actor, language: string, now: Time)
    | Verifying(id: string, actor: Actor, input: Input, key: string, now: Time)
    | Proven(id: string, actor: Actor, input: Input, proof: Proof, since: Time)

  /** What the holder of the adapter's lock asks of the store next. */
  datatype Held =
    | ApproveNext(id: string, approver: Actor, goal: Goal)
    | BeginNext(id: string, tool: string, args: string, preview: string, actor: Actor)
    | FinishNext(id: string, succeeded: bool, actor: Actor)
    | RejectNext(id: string, actor: Actor)

  datatype Goal = Return | MarkConfirmed | ThenBegin(tool: string, args: string, preview: string, actor: Actor)

  datatype Adapter = Adapter(
    world: G.World, history: S.History, epoch: nat, bindings: map<string, Binding>,
    challenges: map<string, Challenge>, budgets: map<string, Budget>, verifier: bool,
    flights: map<nat, Flight>, locked: Option<Held>, clock: Time)

  datatype AdapterError =
    | UnsupportedTool | ActorMissing | ActorInvalid | SessionMissing | SessionOther | ApproverRequired
    | Unavailable | Unknown | NotWaiting | BadLanguage | Late | TooLong | NoCommit | NotStarted | Replayed
    | BadPhrase | TooSoon | BudgetsFull | LockedOut | Busy | NoVerifier | CredentialRejected | ProofInvalid

  datatype Reply =
    | Stop(error: AdapterError)
    | GateSays(refusal: Error)
    | StoreSays(answer: Answer)
    | Opened(challenge: Challenge)
    | Continues

  // ----- pure parts

  function ToolScope(tool: string): string { "ai:tool:" + tool }

  /** gateIntentDigest. */
  function ToolIntent(r: ToolRequest): Token {
    ToolIntentHash(r.toolName, r.sensitivity, r.argsDigest, r.previewDigest, if r.diff == "" then NoSum else DiffSum(r.diff))
  }

  function BindingOf(r: ToolRequest, requester: Actor): Binding {
    Binding(r.toolName, ToolScope(r.toolName), ToolIntent(r), requester)
  }

  /** validateGateActor: the first thing wrong with an actor. */
  function ActorError(actor: Actor): Option<AdapterError> {
    if actor.subject == "" then Some(ActorMissing)
    else if !ValidOpaque(actor.subject) then Some(ActorInvalid)
    else if !ValidIdentifier(actor.sessionID) then Some(SessionMissing)
    else None
  }

  function GateRole(role: string): Role {
    if role == "security_admin" then SecurityAdmin
    else if role == "tenant_owner" then TenantOwner
    else Operator
  }

  function GateConfirmation(c: Challenge, actor: Actor, input: Input, proof: Proof, epoch: nat, nonce: Token): Confirmation {
    Confirmation(c.warningStartedAt, proof.password, input.second, input.third, c.confirmationID, actor.subject,
                 GateRole(actor.role), c.scope, epoch, 0, true, false, "", actor.sessionID, c.language, input.phrase,
                 c.intent, "", nonce, proof.totp, 0)
  }

  /** validateGateCommit. */
  predicate CommitFits(r: Record, c: Challenge) {
    r.commit.Some? &&
    var k := r.commit.value;
    && k.requestID == r.id && k.confirmationID == c.confirmationID && k.actor == c.approver.subject
    && k.sessionID == c.approver.sessionID && k.scope == c.scope && k.policyEpoch == r.request.policyEpoch
    && k.intentDigest == c.intent && k.nonce == r.request.nonce && k.expiresAt == r.expiresAt
  }

  /** pruneCredentialBudgetsLocked. */
  function Pruned(budgets: map<string, Budget>, now: Time): map<string, Budget> {
    map k | k in budgets && (budgets[k].verifying || now < budgets[k].expiresAt) :: budgets[k]
  }

  function BudgetKey(actor: Actor): string { actor.subject + ":" + actor.sessionID }

  /** What a call says when its actor is not the challenge's approver. */
  function ApproverError(c: Challenge, actor: Actor): Option<AdapterError> {
    if actor.subject != c.approver.subject then Some(ActorInvalid)
    else if actor.sessionID != c.approver.sessionID then Some(SessionOther)
    else None
  }

  // ----- creating

  /** The part of CreateForWithPreview outside the lock: the store creates the request. */
  function CreateStart(a: Adapter, t: nat, op: S.Op): (Adapter, Reply)
    requires op.CreateOp?
  {
    var r := op.request;
    if r.sensitivity != Destructive then (a, Stop(UnsupportedTool))
    else if ActorError(r.requester).Some? then (a, Stop(ActorError(r.requester).value))
    else
      var answer := S.Call(a.history.store, op).1;
      var a' := a.(history := S.Next(a.history, op));
      if answer.Refusal? then (a', StoreSays(answer))
      else (a'.(flights := a.flights[t := Created(r, r.requester)]), Continues)
  }

  function Bind(a: Adapter, t: nat): (Adapter, Reply)
    requires t in a.flights && a.flights[t].Created?
  {
    var f := a.flights[t];
    (a.(bindings := a.bindings[f.request.id := BindingOf(f.request, f.actor)], flights := a.flights - {t}),
     StoreSays(Done(f.request)))
  }

  // ----- BeginConfirmation

  /** The checks before the lock, on the request as the store shows it now. */
  function OpenRead(a: Adapter, t: nat, id: string, actor: Actor, language: string): (Adapter, Reply) {
    if id !in a.history.store.requests then (a, Stop(Unknown))
    else
      var r := a.history.store.requests[id];
      if r.sensitivity != Destructive then (a, Stop(UnsupportedTool))
      else if r.requester.subject == "" || r.requester.sessionID == "" then (a, Stop(Unavailable))
      else if r.status != Waiting then (a, Stop(NotWaiting))
      else if ActorError(actor).Some? then (a, Stop(ActorError(actor).value))
      else if r.requester.subject == actor.subject then (a, Stop(ApproverRequired))
      else match NormalizeLanguage(language)
           case None => (a, Stop(BadLanguage))
           case Some(tag) => (a.(flights := a.flights[t := Asked(id, r, actor, tag)]), Continues)
  }

  /** The time is read later, when the store may have moved on, and still before the lock. */
  function OpenClock(a: Adapter, t: nat): (Adapter, Reply)
    requires t in a.flights && a.flights[t].Asked?
  {
    var f := a.flights[t];
    if f.request.expiresAt <= a.clock then (a.(flights := a.flights - {t}), Stop(Late))
    else if f.request.expiresAt - a.clock > MAX_APPROVAL_TTL then (a.(flights := a.flights - {t}), Stop(TooLong))
    else (a.(flights := a.flights[t := Opening(f.id, f.request, f.actor, f.language, a.clock)]), Continues)
  }

  predicate BindingFits(b: Binding, r: ToolRequest) {
    && b.tool == r.toolName && b.intent == ToolIntent(r) && b.requester.subject == r.requester.subject
    && b.requester.sessionID == r.requester.sessionID
  }

  /** What opening says about a challenge that is already there. */
  function Reopened(c: Challenge, f: Flight): Reply
    requires f.Opening?
  {
    if c.approver.subject != f.actor.subject then Stop(ApproverRequired)
    else if c.approver.sessionID != f.actor.sessionID then Stop(SessionOther)
    else if c.language != f.language then Stop(BadLanguage)
    else if c.expiresAt <= f.now then Stop(Late)
    else Opened(c)
  }

  /** The binding made on creation, or one rebuilt from the request. */
  function OpeningBinding(a: Adapter, f: Flight): Binding
    requires f.Opening?
  {
    if f.id in a.bindings then a.bindings[f.id] else BindingOf(f.request, f.request.requester)
  }

  /** What is submitted to the gate: valid for as long as the tool request is. */
  function OpeningRequest(f: Flight, b: Binding, epoch: nat): Request
    requires f.Opening?
  {
    Request(f.id, High, b.scope, epoch, f.request.expiresAt - f.now, false, false, false, false, false, false, false,
            b.requester.subject, b.requester.sessionID, f.language, b.intent, "", Literal(""))
  }

  /** The locked part; newID is the new confirmation ID. */
  function Open(a: Adapter, t: nat, newID: string, refuse: bool): (Adapter, Reply)
    requires t in a.flights && a.flights[t].Opening?
  {
    var f := a.flights[t];
    var id := f.id;
    var b := OpeningBinding(a, f);
    var a1 := a.(flights := a.flights - {t}, bindings := a.bindings[id := b]);
    if !BindingFits(b, f.request) then (a1, Stop(NoCommit))
    else if id in a.challenges then (a1, Reopened(a.challenges[id], f))
    else StartChallenge(a1, f, b, newID, refuse)
  }

  /** The warning starts with the gate's record of the request. */
  function StartChallenge(a: Adapter, f: Flight, b: Binding, newID: string, refuse: bool): (Adapter, Reply)
    requires f.Opening?
  {
    var (w, submitted) := G.Submit(a.world, f.now, OpeningRequest(f, b, a.epoch), refuse);
    match submitted
    case Err(e) => (a.(world := w), GateSays(e))
    case Ok(record) =>
      var c := Challenge(newID, f.now, record.expiresAt, f.language, PhraseOf(f.language), 1, true, f.actor,
                         b.scope, b.intent, NO_PROOF, 0, 0, false);
      (a.(world := w, challenges := a.challenges[f.id := c]), Opened(c))
  }

  function PhraseOf(language: string): string {
    match ExpectedPhrase(language) case Some(p) => p case None => ""
  }

  // ----- ConfirmContext

  /** Why a record cannot be confirmed by this input at this moment. */
  function ConfirmError(r: Record, c: Challenge, input: Input, now: Time): Option<AdapterError> {
    if r.status != Pending then Some(NotWaiting)
    else if r.expiresAt <= now then Some(Late)
    else if input.phrase != c.phrase then Some(BadPhrase)
    else if now < c.warningStartedAt + WARNING_DELAY then Some(TooSoon)
    else None
  }

  /** The budget a verification would use: the stored one, or a new one in its place. */
  function BudgetFor(budgets: map<string, Budget>, key: string, now: Time): Budget {
    if key in budgets && (budgets[key].verifying || now < budgets[key].expiresAt) then budgets[key].(lastSeen := now)
    else Budget(0, false, now + LOCK_WINDOW, now)
  }

  function BudgetError(a: Adapter, key: string, c: Challenge, now: Time): Option<AdapterError> {
    var budget := BudgetFor(a.budgets, key, now);
    if key !in a.budgets && |a.budgets| >= MAX_BUDGETS then Some(BudgetsFull)
    else if c.failures >= MAX_FAILURES || budget.failures >= MAX_FAILURES then Some(LockedOut)
    else if c.verifying || budget.verifying then Some(Busy)
    else if !a.verifier then Some(NoVerifier)
    else None
  }

  predicate CachedProof(c: Challenge, now: Time) { c.step >= 2 && now < c.proofExpiresAt && ValidProof(c.proof) }

  /** A confirmation of an approved record: what is left is the store's approval. */
  function AlreadyApproved(a: Adapter, id: string, now: Time): (Adapter, Reply)
    requires id in a.challenges && id in a.history.store.requests && id in a.world.gate.requests
    requires a.world.gate.requests[id].commit.Some?
  {
    var r, c := a.world.gate.requests[id], a.challenges[id];
    if a.history.store.requests[id].status == Granted then (a, Stop(Replayed))
    else if !CommitFits(r, c) then (a, Stop(NoCommit))
    else if r.commit.value.expiresAt <= now then (a, Stop(Late))
    else (a.(locked := Some(ApproveNext(id, c.approver, MarkConfirmed))), Continues)
  }

  /** The section before verification; budgets were pruned at pruneAt. */
  function ConfirmStart(a0: Adapter, t: nat, id: string, actor: Actor, input: Input, pruneAt: Time): (Adapter, Reply) {
    var a := a0.(budgets := Pruned(a0.budgets, pruneAt));
    if id !in a.challenges then (a, Stop(NotStarted))
    else if ApproverError(a.challenges[id], actor).Some? then (a, Stop(ApproverError(a.challenges[id], actor).value))
    else if id !in a.history.store.requests then (a, Stop(Unknown))
    else if id !in a.world.gate.requests then (a, Stop(NoCommit))
    else
      var r, c := a.world.gate.requests[id], a.challenges[id];
      if r.status == Approved && r.commit.Some? then AlreadyApproved(a, id, a.clock)
      else if ConfirmError(r, c, input, a.clock).Some? then (a, Stop(ConfirmError(r, c, input, a.clock).value))
      else Verify(a, t, id, actor, input)
  }

  /** Take the cached proof, or mark challenge and budget busy and go to the verifier. */
  function Verify(a: Adapter, t: nat, id: string, actor: Actor, input: Input): (Adapter, Reply)
    requires id in a.challenges
  {
    var c, key := a.challenges[id], BudgetKey(actor);
    if CachedProof(c, a.clock) then
      (a.(flights := a.flights[t := Proven(id, actor, input, c.proof, a.clock)]), Continues)
    else if BudgetError(a, key, c, a.clock).Some? then (a, Stop(BudgetError(a, key, c, a.clock).value))
    else
      (a.(flights := a.flights[t := Verifying(id, actor, input, key, a.clock)],
          challenges := a.challenges[id := c.(verifying := true)],
          budgets := a.budgets[key := BudgetFor(a.budgets, key, a.clock).(verifying := true)]), Continues)
  }

  function ChallengeAt(challenges: map<string, Challenge>, id: string): Challenge {
    if id in challenges then challenges[id] else BLANK
  }

  function BudgetAt(budgets: map<string, Budget>, key: string): Budget {
    if key in budgets then budgets[key] else Budget(0, false, 0, 0)
  }

  /** The section after verification; no verdict is an error of the verifier. */
  function Verdict(a: Adapter, t: nat, verdict: Option<Proof>): (Adapter, Reply)
    requires t in a.flights && a.flights[t].Verifying?
  {
    var f := a.flights[t];
    var c := ChallengeAt(a.challenges, f.id).(verifying := false);
    var b := BudgetAt(a.budgets, f.key).(verifying := false, lastSeen := a.clock);
    if verdict.Some? && ValidProof(verdict.value) then
      (a.(challenges := a.challenges[f.id := c], budgets := a.budgets[f.key := b],
          flights := a.flights[t := Proven(f.id, f.actor, f.input, verdict.value, a.clock)]), Continues)
    else
      (a.(challenges := a.challenges[f.id := c.(failures := c.failures + 1)],
          budgets := a.budgets[f.key := b.(failures := b.failures + 1, expiresAt := f.now + LOCK_WINDOW)],
          flights := a.flights - {t}),
       Stop(if verdict.None? then CredentialRejected else ProofInvalid))
  }

  /** confirmWithProof, at a time read before the lock was taken. */
  function ConfirmEnd(a0: Adapter, t: nat, now: Time, refuse: bool): (Adapter, Reply)
    requires t in a0.flights && a0.flights[t].Proven?
  {
    var f := a0.flights[t];
    var id, a := f.id, a0.(flights := a0.flights - {t});
    if id !in a.challenges then (a, Stop(NotStarted))
    else if ApproverError(a.challenges[id], f.actor).Some? then (a, Stop(ApproverError(a.challenges[id], f.actor).value))
    else if id !in a.history.store.requests then (a, Stop(Unknown))
    else if id !in a.world.gate.requests then (a, Stop(NoCommit))
    else
      var r := a.world.gate.requests[id];
      if r.status == Approved && r.commit.Some? then AlreadyApproved(a, id, now)
      else if r.status != Pending then (a, Stop(NotWaiting))
      else AskGate(a, f, now, refuse)
  }

  function AskGate(a: Adapter, f: Flight, now: Time, refuse: bool): (Adapter, Reply)
    requires f.Proven? && f.id in a.challenges && f.id in a.world.gate.requests
  {
    var c := a.challenges[f.id];
    var confirmation := GateConfirmation(c, f.actor, f.input, f.proof, a.epoch, a.world.gate.requests[f.id].request.nonce);
    var (w, answer) := G.Confirm(a.world, now, f.id, confirmation, refuse);
    match answer
    case Ok(_) =>
      (a.(world := w, locked := Some(ApproveNext(f.id, c.approver, Return)),
          challenges := a.challenges[f.id := c.(step := 3, needsThird := false, proof := NO_PROOF, proofExpiresAt := 0)]),
       Continues)
    case Err(ThirdConfirmation) =>
      (a.(world := w,
          challenges := a.challenges[f.id := c.(step := 2, needsThird := true, proof := f.proof, proofExpiresAt := now + PROOF_TTL)]),
       GateSays(ThirdConfirmation))
    case Err(e) => (a.(world := w), GateSays(e))
  }

  // ----- executing, finishing, rejecting

  /** What execution and completion demand of challenge and gate. */
  function CommitError(a: Adapter, id: string): Option<AdapterError> {
    if id !in a.challenges then Some(NotStarted)
    else if id !in a.world.gate.requests then Some(NoCommit)
    else if a.world.gate.requests[id].status != Approved || !CommitFits(a.world.gate.requests[id], a.challenges[id])
    then Some(NoCommit)
    else None
  }

  function ExecuteStart(a: Adapter, id: string, tool: string, args: string, preview: string, actor: Actor, now: Time)
    : (Adapter, Reply)
  {
    if CommitError(a, id).Some? then (a, Stop(CommitError(a, id).value))
    else if a.world.gate.requests[id].commit.value.expiresAt <= now then (a, Stop(Late))
    else (a.(locked := Some(ApproveNext(id, a.challenges[id].approver, ThenBegin(tool, args, preview, actor)))), Continues)
  }

  function FinishStart(a: Adapter, id: string, succeeded: bool, actor: Actor): (Adapter, Reply) {
    if CommitError(a, id).Some? then (a, Stop(CommitError(a, id).value))
    else (a.(locked := Some(FinishNext(id, succeeded, actor))), Continues)
  }

  const DEFAULT_REASON := "AI high-risk approval rejected"

  function RejectStart(a: Adapter, id: string, actor: Actor, reason: string, refuse: bool): (Adapter, Reply) {
    var forgotten := a.(bindings := a.bindings - {id}, locked := Some(RejectNext(id, actor)));
    if id !in a.challenges then (forgotten, Continues)
    else
      var (w, revoked) :=
        G.Revoke(a.world, a.clock, id, actor.subject, if reason == "" then DEFAULT_REASON else reason, refuse);
      if revoked.Fail? && revoked.error != RevokedError && revoked.error != ExpiredError
      then (a.(world := w), GateSays(revoked.error))
      else (forgotten.(world := w, challenges := a.challenges - {id}), Continues)
  }

  // ----- the store calls of the lock's holder

  /** The store call the holder makes. */
  function HeldCall(h: Held, now: Time, write: Write): S.Op {
    match h
    case ApproveNext(id, approver, _) => S.ApproveOp(id, approver, true, now, write)
    case BeginNext(id, tool, args, preview, actor) => S.BeginOp(id, tool, args, preview, actor, true, now, write)
    case FinishNext(id, succeeded, actor) => S.FinishOp(id, succeeded, actor, true, now, write)
    case RejectNext(id, actor) => S.RejectOp(id, actor, now, write)
  }

  /** What is left to do under the lock once the store has answered. */
  function StillHeld(h: Held, answer: Answer): Option<Held> {
    if h.ApproveNext? && h.goal.ThenBegin? && answer.Done?
    then Some(BeginNext(h.id, h.goal.tool, h.goal.args, h.goal.preview, h.goal.actor)) else None
  }

  function Confirmed(challenges: map<string, Challenge>, h: Held, answer: Answer): map<string, Challenge> {
    if h.ApproveNext? && h.goal.MarkConfirmed? && answer.Done? && h.id in challenges
    then challenges[h.id := challenges[h.id].(step := 3, needsThird := false)] else challenges
  }

  function HeldStep(a: Adapter, write: Write): (Adapter, Reply)
    requires a.locked.Some?
  {
    var h := a.locked.value;
    var op := HeldCall(h, a.clock, write);
    var answer := S.Call(a.history.store, op).1;
    (a.(history := S.Next(a.history, op), locked := StillHeld(h, answer), challenges := Confirmed(a.challenges, h, answer)),
     StoreSays(answer))
  }

  // ----- the transition system

  datatype Op =
    | TickOp(now: Time)
    | VerifierOp(present: bool)
    | StoreOp(call: S.Op)
    | CreateStartOp(t: nat, call: S.Op)
    | BindOp(t: nat)
    | OpenReadOp(t: nat, id: string, actor: Actor, language: string)
    | OpenClockOp(t: nat)
    | OpenOp(t: nat, newID: string, refuse: bool)
    | ConfirmStartOp(t: nat, id: string, actor: Actor, input: Input, pruneAt: Time)
    | VerdictOp(t: nat, verdict: Option<Proof>)
    | ConfirmEndOp(t: nat, now: Time, refuse: bool)
    | ExecuteStartOp(id: string, tool: string, args: string, preview: string, actor: Actor, now: Time)
    | FinishStartOp(id: string, succeeded: bool, actor: Actor)
    | RejectStartOp(id: string, actor: Actor, reason: string, refuse: bool)
    | HeldOp(write: Write)

  /** A call of the store by somebody else: never gate-authorized. */
  ghost predicate Outside(a: Adapter, call: S.Op) {
    && !call.CrashOp? && call.now == a.clock && S.Possible(a.history, call)
    && ((call.ApproveOp? || call.BeginOp? || call.FinishOp?) ==> !call.gate)
  }

  /** Which steps can come next: sections need the lock, later sections their flight, and
      times read before a lock lie between the previous section and now. */
  ghost predicate Enabled(a: Adapter, op: Op) {
    match op
    case TickOp(now) => a.clock <= now
    case VerifierOp(_) => a.locked.None?
    case StoreOp(call) => Outside(a, call)
    case CreateStartOp(t, call) => t !in a.flights && call.CreateOp? && Outside(a, call)
    case BindOp(t) => a.locked.None? && t in a.flights && a.flights[t].Created?
    case OpenReadOp(t, _, _, _) => t !in a.flights
    case OpenClockOp(t) => t in a.flights && a.flights[t].Asked?
    case OpenOp(t, _, _) => a.locked.None? && t in a.flights && a.flights[t].Opening?
    case ConfirmStartOp(t, _, _, _, pruneAt) => a.locked.None? && t !in a.flights && pruneAt <= a.clock
    case VerdictOp(t, _) => a.locked.None? && t in a.flights && a.flights[t].Verifying?
    case ConfirmEndOp(t, now, _) =>
      a.locked.None? && t in a.flights && a.flights[t].Proven? && a.flights[t].since <= now <= a.clock
    case ExecuteStartOp(_, _, _, _, _, now) => a.locked.None? && now <= a.clock
    case FinishStartOp(_, _, _) => a.locked.None?
    case RejectStartOp(_, _, _, _) => a.locked.None?
    case HeldOp(_) => a.locked.Some?
  }

  ghost function Step(a: Adapter, op: Op): (Adapter, Reply)
    requires Enabled(a, op)
  {
    match op
    case TickOp(now) => (a.(clock := now), Continues)
    case VerifierOp(present) => (a.(verifier := present), Continues)
    case StoreOp(call) =>
      (a.(history := S.Next(a.history, call)), StoreSays(S.Call(a.history.store, call).1))
    case CreateStartOp(t, call) => CreateStart(a, t, call)
    case BindOp(t) => Bind(a, t)
    case OpenReadOp(t, id, actor, language) => OpenRead(a, t, id, actor, language)
    case OpenClockOp(t) => OpenClock(a, t)
    case OpenOp(t, newID, refuse) => Open(a, t, newID, refuse)
    case ConfirmStartOp(t, id, actor, input, pruneAt) => ConfirmStart(a, t, id, actor, input, pruneAt)
    case VerdictOp(t, verdict) => Verdict(a, t, verdict)
    case ConfirmEndOp(t, now, refuse) => ConfirmEnd(a, t, now, refuse)
    case ExecuteStartOp(id, tool, args, preview, actor, now) => ExecuteStart(a, id, tool, args, preview, actor, now)
    case FinishStartOp(id, succeeded, actor) => FinishStart(a, id, succeeded, actor)
    case RejectStartOp(id, actor, reason, refuse) => RejectStart(a, id, actor, reason, refuse)
    case HeldOp(write) => HeldStep(a, write)
  }

  /** A new adapter over a new gate, and a store with this history. */
  function StartOver(epoch: nat, bound: bool, history: S.History, clock: Time): Adapter {
    Adapter(G.World(G.NewGate(epoch), if bound then Some(G.ApprovalLedger.EMPTY_LEDGER) else None), history, epoch,
            map[], map[], map[], false, map[], None, clock)
  }
}
