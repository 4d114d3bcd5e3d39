/** The approval gate as a value, and what each mutex-held call does to it and
    to the ledger bound to it. A call whose ledger write fails leaves the world
    it started from. */
module ApprovalGate {
  import opened Wrappers
  import opened ApprovalTypes
  import opened ApprovalRules
  import opened ApprovalLedger

  datatype Gate = Gate(
    policyEpoch: nat, requests: map<string, Record>, usedIDs: set<string>,
    owners: map<string, string>, audit: seq<AuditEvent>, sequence: nat, durable: map<string, nat>)

  /** A gate and the ledger it is bound to, if any. */
  datatype World = World(gate: Gate, ledger: Option<Ledger>)

  function NewGate(epoch: nat): Gate { Gate(epoch, map[], {}, map[], [], 0, map[]) }

  // ----- audit and persistence

  function MakeEvent(g: Gate, now: Time, kind: AuditType, id: string, actor: string, scope: string,
                     epoch: nat, confirmationID: string, reason: Reason): AuditEvent
  {
    var e := AuditEvent(g.sequence + 1, kind, now, id, actor, scope, epoch, confirmationID, reason,
                        "", Literal(""), "", 0, Literal(""), NoHash, NoHash);
    if id !in g.requests then e
    else
      var r := g.requests[id];
      e.(workflowDigest := r.request.workflowDigest, intentDigest := r.request.intentDigest,
         sessionID := r.request.sessionID, step := r.confirmation.step, nonce := r.request.nonce)
  }

  function AppendAudit(g: Gate, e: AuditEvent): Gate {
    g.(audit := g.audit + [e], sequence := g.sequence + 1)
  }

  function Digit(n: nat): char requires n < 10 { '0' + n as char }

  function Decimal(n: nat): string {
    if n < 10 then [Digit(n)] else Decimal(n / 10) + [Digit(n % 10)]
  }

  function Key(id: string, n: nat): string { "gate:" + id + ":" + Decimal(n) }

  /** Go's zero Record, which an absent map key reads as. */
  const NO_RECORD: Record :=
    Record("", Request("", OtherRisk(""), "", 0, 0, false, false, false, false, false, false, false,
                       "", "", "", Literal(""), "", Literal("")),
           Pending, 0, 0, NO_CONFIRMATION, None)

  function DurableSequence(g: Gate, id: string): nat {
    if id in g.durable then g.durable[id] else 0
  }

  function RecordOf(g: Gate, id: string): Record {
    if id in g.requests then g.requests[id] else NO_RECORD
  }

  /** The ledger mutations for those events that belong to id, numbered after local. */
  function Mutations(record: Record, events: seq<AuditEvent>, id: string, local: nat): seq<Mutation> {
    if events == [] then []
    else if events[0].requestID != id then Mutations(record, events[1..], id, local)
    else [Mutation(Key(id, local + 1), record.request.workflowDigest, record,
                   events[0].(sequence := local + 1))]
         + Mutations(record, events[1..], id, local + 1)
  }

  /** persistSince: write the events g gained since w, or fail without a trace. */
  function Persist(w: World, g: Gate, id: string, refuse: bool): Result<World>
    requires |w.gate.audit| <= |g.audit|
  {
    if w.ledger.None? then Ok(World(g, None))
    else
      var local := DurableSequence(g, id);
      var batch := Mutations(RecordOf(g, id), g.audit[|w.gate.audit|..], id, local);
      var g' := g.(durable := g.durable[id := local + |batch|]);
      if batch == [] then Ok(World(g', w.ledger))
      else match ApplyBatch(w.ledger.value, batch, refuse)
           case Err(e) => Err(e)
           case Ok(l) => Ok(World(g', Some(l)))
  }

  // ----- Submit

  function AdmitRequest(g: Gate, raw: Request): (r: Result<Request>)
    ensures r.Ok? ==> r.value.id == raw.id && r.value.id !in g.requests
                      && r.value.policyEpoch == g.policyEpoch && ValidateRequest(r.value).Pass?
  {
    match NormalizeRequest(raw)
    case Err(e) => Err(e)
    case Ok(req) =>
      if ValidateRequest(req).Fail? then Err(ValidateRequest(req).error)
      else if req.policyEpoch != g.policyEpoch then Err(EpochChanged)
      else if req.id in g.requests then Err(DuplicateRequest)
      else Ok(req)
  }

  predicate AutoApproved(req: Request) {
    req.preApproved && req.risk == Low && !Sensitive(req) && !req.breakGlass
  }

  const PREAPPROVED := "preapproved:"

  function PreApprovedID(req: Request): string { PREAPPROVED + req.id }

  function NewRecord(now: Time, req: Request): Record
    requires ValidateRequest(req).Pass?
  {
    var expires := now + req.ttl;
    if !AutoApproved(req) then Record(req.id, req, Pending, now, expires, NO_CONFIRMATION, None)
    else
      var id := PreApprovedID(req);
      var phrase := match ExpectedPhrase(req.language) case Some(p) => p case None => "";
      var commit := Commit(req.id, id, req.actor, req.scope, req.policyEpoch, req.risk, req.ttl, now,
                           expires, req.workflowDigest, req.sessionID, req.language,
                           req.intentDigest, req.nonce);
      var c := NO_CONFIRMATION.(confirmationID := id, actor := req.actor, scope := req.scope,
        policyEpoch := req.policyEpoch, ttl := req.ttl, sessionID := req.sessionID,
        language := req.language, phrase := phrase, intentDigest := req.intentDigest,
        workflowDigest := req.workflowDigest, nonce := req.nonce);
      Record(req.id, req, Approved, now, expires, c, Some(commit))
  }

  function AfterSubmit(g: Gate, now: Time, req: Request): (r: Gate)
    requires ValidateRequest(req).Pass?
    ensures |r.audit| > |g.audit| && r.audit[..|g.audit|] == g.audit
  {
    var record := NewRecord(now, req);
    var g1 := g.(requests := g.requests[req.id := record]);
    var g2 := AppendAudit(g1, MakeEvent(g1, now, Submitted, req.id, req.actor, req.scope,
                                        req.policyEpoch, "", Plain("")));
    if record.status != Approved then g2
    else
      var id := record.commit.value.confirmationID;
      var g3 := g2.(usedIDs := g2.usedIDs + {id});
      AppendAudit(g3, MakeEvent(g3, now, Authorized, req.id, req.actor, req.scope,
                                req.policyEpoch, id, Plain("pre-approved")))
  }

  function Submit(w: World, now: Time, raw: Request, refuse: bool): (World, Result<Record>) {
    match AdmitRequest(w.gate, raw)
    case Err(e) => (w, Err(e))
    case Ok(req) =>
      match Persist(w, AfterSubmit(w.gate, now, req), req.id, refuse)
      case Err(e) => (w, Err(e))
      case Ok(w') => (w', Ok(NewRecord(now, req)))
  }

  // ----- Confirm

  datatype Decision =
    | Reject(error: Error)
    | Expire
    | Check(c: Confirmation, first: bool)
    | Authorize(c: Confirmation)

  /** The checks that do not depend on how far the two-click flow has come. */
  function ConfirmationChecks(g: Gate, now: Time, id: string, c: Confirmation): Outcome
    requires id in g.requests
  {
    var req := g.requests[id].request;
    if req.policyEpoch != g.policyEpoch || c.policyEpoch != req.policyEpoch then Fail(EpochChanged)
    else if c.scope != req.scope then Fail(ScopeChanged)
    else if c.actor == "" then Fail(ActorRequired)
    else if !ValidOpaque(c.actor) then Fail(InvalidActor)
    else if c.confirmationID == "" then Fail(ConfirmationRequired)
    else if !ValidOpaque(c.confirmationID) then Fail(InvalidConfirmationID)
    else if c.confirmationID in g.usedIDs then Fail(ConfirmationReplay)
    else if c.confirmationID in g.owners && g.owners[c.confirmationID] != id
    then Fail(ConfirmationReplay)
    else if !c.local then Fail(LocalConfirmation)
    else if !ValidIdentifier(c.sessionID) then Fail(SessionRequired)
    else if HighRisk(req) && (c.actor == req.actor || c.sessionID == req.sessionID)
    then Fail(InvalidActor)
    else if !HighRisk(req) && c.sessionID != req.sessionID then Fail(SessionChanged)
    else if c.language == "" || NormalizeLanguage(c.language) != Some(req.language)
    then Fail(ConfirmationLanguage)
    else if ExpectedPhrase(req.language) != Some(c.phrase) then Fail(ConfirmationPhrase)
    else if c.intentDigest != req.intentDigest then Fail(IntentChanged)
    else if c.workflowDigest != req.workflowDigest then Fail(WorkflowChanged)
    else if EmptyToken(c.nonce) || c.nonce != req.nonce then Fail(IntentChanged)
    else if c.ttl != 0 && c.ttl != req.ttl then Fail(TTLChanged)
    else if c.warningReadAt == 0 || c.warningReadAt > now || now - c.warningReadAt < WARNING_DELAY
    then Fail(WarningDelay)
    else if !c.passwordConfirmed && !c.totpConfirmed then Fail(PasswordConfirmation)
    else if !c.secondConfirmation then Fail(SecondConfirmation)
    else if req.risk == Emergency then BreakGlassChecks(req, c)
    else Pass
  }

  function BreakGlassChecks(req: Request, c: Confirmation): Outcome {
    if !req.breakGlass || !c.breakGlass then Fail(BreakGlassRequired)
    else if AllSpace(c.breakGlassReason) then Fail(BreakGlassReason)
    else if !ValidReason(c.breakGlassReason) then Fail(InvalidReason)
    else if c.role != SecurityAdmin && c.role != TenantOwner then Fail(BreakGlassActor)
    else Pass
  }

  function Decide(g: Gate, now: Time, id: string, raw: Confirmation): Decision
    requires id in g.requests
  {
    var record := g.requests[id];
    if record.status == Revoked then Reject(RevokedError)
    else if record.status == Expired then Reject(ExpiredError)
    else if record.status != Pending then Reject(NotPending)
    else if now >= record.expiresAt then Expire
    else if ConfirmationChecks(g, now, id, raw).Fail?
    then Reject(ConfirmationChecks(g, now, id, raw).error)
    else
      var c := raw.(language := record.request.language);
      var prior := record.confirmation;
      if !Sensitive(record.request) then Authorize(c.(step := 2, ttl := record.request.ttl))
      else if !c.thirdConfirmation then
        if prior.confirmationID == "" then Check(c.(step := 2, ttl := record.request.ttl), true)
        else if SameCheckpoint(prior, c).Fail? then Reject(SameCheckpoint(prior, c).error)
        else Check(c, false)
      else if prior.confirmationID == "" || prior.step < 2 then Reject(ConfirmationSequence)
      else if SameCheckpoint(prior, c).Fail? then Reject(SameCheckpoint(prior, c).error)
      else Authorize(c.(step := 3, ttl := record.request.ttl))
  }

  function CommitFor(record: Record, now: Time, c: Confirmation): Commit {
    var req := record.request;
    Commit(record.id, c.confirmationID, c.actor, c.scope, c.policyEpoch, req.risk, req.ttl, now,
           record.expiresAt, req.workflowDigest, c.sessionID, c.language, c.intentDigest, req.nonce)
  }

  const CHECKPOINT_REASON := "second confirmation recorded; third confirmation required"

  function AfterConfirm(g: Gate, now: Time, id: string, raw: Confirmation): (r: Gate)
    requires id in g.requests
    ensures |r.audit| == |g.audit| + 1 && r.audit[..|g.audit|] == g.audit
  {
    var record := g.requests[id];
    var req := record.request;
    match Decide(g, now, id, raw)
    case Reject(e) =>
      AppendAudit(g, MakeEvent(g, now, Rejected, id, raw.actor, req.scope, req.policyEpoch,
                               raw.confirmationID, Because(e)))
    case Expire =>
      var g1 := g.(requests := g.requests[id := record.(status := Expired)]);
      AppendAudit(g1, MakeEvent(g1, now, ExpiredEvent, id, raw.actor, req.scope, req.policyEpoch,
                                raw.confirmationID, Plain("TTL elapsed")))
    case Check(c, first) =>
      var g1 := if !first then g
                else g.(requests := g.requests[id := record.(confirmation := c)],
                        owners := g.owners[c.confirmationID := id]);
      AppendAudit(g1, MakeEvent(g1, now, Checkpoint, id, c.actor, c.scope, c.policyEpoch,
                                c.confirmationID, Plain(CHECKPOINT_REASON)))
    case Authorize(c) =>
      var record' := record.(status := Approved, confirmation := c,
                             commit := Some(CommitFor(record, now, c)));
      var g1 := g.(requests := g.requests[id := record'],
                   usedIDs := g.usedIDs + {c.confirmationID});
      AppendAudit(g1, MakeEvent(g1, now, Authorized, id, c.actor, c.scope, c.policyEpoch,
                                c.confirmationID, Plain("interactive confirmation")))
  }

  function ConfirmAnswer(g: Gate, now: Time, id: string, raw: Confirmation): Result<Commit>
    requires id in g.requests
  {
    match Decide(g, now, id, raw)
    case Reject(e) => Err(e)
    case Expire => Err(ExpiredError)
    case Check(_, _) => Err(ThirdConfirmation)
    case Authorize(c) => Ok(CommitFor(g.requests[id], now, c))
  }

  function Confirm(w: World, now: Time, id: string, raw: Confirmation, refuse: bool)
    : (World, Result<Commit>)
  {
    var known := id in w.gate.requests;
    var g := if known then AfterConfirm(w.gate, now, id, raw) else w.gate;
    var answer := if known then ConfirmAnswer(w.gate, now, id, raw) else Err(NotFound);
    match Persist(w, g, id, refuse)
    case Err(e) => (w, Err(e))
    case Ok(w') => (w', answer)
  }

  // ----- Revoke and ConsumeAuthorization

  function Withdraw(g: Gate, now: Time, id: string, actor: string, confirmationID: string,
                    reason: string): (r: Gate)
    requires id in g.requests
    ensures |r.audit| == |g.audit| + 1 && r.audit[..|g.audit|] == g.audit
  {
    var record := g.requests[id];
    var g1 := g.(requests := g.requests[id := record.(status := Revoked, commit := None)]);
    AppendAudit(g1, MakeEvent(g1, now, RevokedEvent, id, actor, record.request.scope,
                              record.request.policyEpoch, confirmationID, Plain(reason)))
  }

  function RevokeChecks(g: Gate, id: string, actor: string, reason: string): Outcome {
    if id !in g.requests then Fail(NotFound)
    else if g.requests[id].status == Revoked then Fail(RevokedError)
    else if actor == "" then Fail(ActorRequired)
    else if !ValidOpaque(actor) then Fail(InvalidActor)
    else if AllSpace(reason) then Fail(ReasonRequired)
    else if !ValidReason(reason) then Fail(InvalidReason)
    else Pass
  }

  function Revoke(w: World, now: Time, id: string, actor: string, reason: string, refuse: bool)
    : (World, Outcome)
  {
    var checked := RevokeChecks(w.gate, id, actor, reason);
    if checked.Fail? then (w, checked)
    else match Persist(w, Withdraw(w.gate, now, id, actor, "", reason), id, refuse)
         case Err(e) => (w, Fail(e))
         case Ok(w') => (w', Pass)
  }

  const CONSUMED_REASON := "authorization consumed"

  function ConsumeChecks(g: Gate, now: Time, id: string, scope: string, intent: Token): Outcome {
    if id !in g.requests then Fail(NotFound)
    else
      var record := g.requests[id];
      if record.status != Approved || record.commit.None? then Fail(NotPending)
      else if record.request.policyEpoch != g.policyEpoch then Fail(EpochChanged)
      else if now >= record.expiresAt then Fail(ExpiredError)
      else if record.request.scope != scope || record.request.intentDigest != intent
      then Fail(IntentChanged)
      else ValidateRecord(record)
  }

  function Consume(w: World, now: Time, id: string, scope: string, intent: Token, refuse: bool)
    : (World, Outcome)
  {
    var checked := ConsumeChecks(w.gate, now, id, scope, intent);
    if checked.Fail? then (w, checked)
    else
      var c := w.gate.requests[id].confirmation;
      match Persist(w, Withdraw(w.gate, now, id, c.actor, c.confirmationID, CONSUMED_REASON),
                    id, refuse)
      case Err(e) => (w, Fail(e))
      case Ok(w') => (w', Pass)
  }

  // ----- RestoreRecord and Restore

  /** The confirmation IDs that events of one kind name. */
  function IDsOf(events: seq<AuditEvent>, kind: AuditType): set<string> {
    set e | e in events && e.kind == kind && e.confirmationID != "" :: e.confirmationID
  }

  function RestoreIDs(used: set<string>, events: seq<AuditEvent>): set<string> {
    used + IDsOf(events, Authorized)
  }

  function RestoreOwners(owners: map<string, string>, id: string, events: seq<AuditEvent>)
    : map<string, string>
  {
    owners + map x | x in IDsOf(events, Checkpoint) :: id
  }

  /** The loaded events renumbered into the gate's own audit sequence. */
  function Renumber(events: seq<AuditEvent>, from: nat): seq<AuditEvent> {
    seq(|events|, i requires 0 <= i < |events| => events[i].(sequence := from + i + 1))
  }

  function RestoreRecord(g: Gate, l: Ledger, id: string): Result<Gate> {
    if id in g.requests then Err(DuplicateRequest)
    else match Load(l, id, g.policyEpoch)
         case Err(e) => Err(e)
         case Ok(Entry(record, _, events)) =>
           if ValidateRecord(record).Fail? then Err(ValidateRecord(record).error)
           else if record.request.policyEpoch != g.policyEpoch then Err(EpochChanged)
           else if events == [] then Err(InvalidPersistence)
           else if !EventsBound(record, events) then Err(BindingConflict)
           else
             var own := Renumber(events, g.sequence);
             Ok(Gate(g.policyEpoch, g.requests[record.id := record],
                     RestoreIDs(g.usedIDs, own), RestoreOwners(g.owners, record.id, own),
                     g.audit + own, g.sequence + |own|, g.durable[record.id := |own|]))
  }

  predicate EventsBound(record: Record, events: seq<AuditEvent>) {
    forall i | 0 <= i < |events| ::
      var e, r := events[i], record.request;
      && e.requestID == record.id && e.scope == r.scope && e.policyEpoch == r.policyEpoch
      && e.intentDigest == r.intentDigest && e.sessionID == r.sessionID && e.nonce == r.nonce
  }

  function RestoreAll(g: Gate, l: Ledger, ids: seq<string>): Result<Gate>
    decreases |ids|
  {
    if ids == [] then Ok(g)
    else match RestoreRecord(g, l, ids[0])
         case Err(e) => Err(e)
         case Ok(g') => RestoreAll(g', l, ids[1..])
  }

  /** Restore of the given requests; given none it would ask the ledger to list them, which
      MemoryPersistence cannot do. */
  function Restore(g: Gate, l: Ledger, ids: seq<string>): Result<Gate> {
    if ids == [] then Err(InvalidPersistence) else RestoreAll(g, l, ids)
  }

  // ----- runs

  datatype Op =
    | SubmitOp(now: Time, request: Request, refuse: bool)
    | ConfirmOp(now: Time, id: string, confirmation: Confirmation, refuse: bool)
    | RevokeOp(now: Time, id: string, actor: string, reason: string, refuse: bool)
    | ConsumeOp(now: Time, id: string, scope: string, intent: Token, refuse: bool)

  datatype Answer =
    | SubmitAnswer(record: Result<Record>)
    | ConfirmedAnswer(commit: Result<Commit>)
    | DoneAnswer(outcome: Outcome)

  function Step(w: World, op: Op): (World, Answer) {
    match op
    case SubmitOp(now, req, refuse) =>
      var (w', r) := Submit(w, now, req, refuse); (w', SubmitAnswer(r))
    case ConfirmOp(now, id, c, refuse) =>
      var (w', r) := Confirm(w, now, id, c, refuse); (w', ConfirmedAnswer(r))
    case RevokeOp(now, id, actor, reason, refuse) =>
      var (w', r) := Revoke(w, now, id, actor, reason, refuse); (w', DoneAnswer(r))
    case ConsumeOp(now, id, scope, intent, refuse) =>
      var (w', r) := Consume(w, now, id, scope, intent, refuse); (w', DoneAnswer(r))
  }

  /** The world after a run of calls. */
  function After(w: World, ops: seq<Op>): World {
    if ops == [] then w else Step(After(w, ops[..|ops| - 1]), ops[|ops| - 1]).0
  }

  /** What call number i of a run answers. */
  function AnswerAt(w: World, ops: seq<Op>, i: nat): Answer
    requires i < |ops|
  {
    Step(After(w, ops[..i]), ops[i]).1
  }

  /** Calls happen at non-zero, non-decreasing times, none before clock. */
  predicate Timed(clock: Time, ops: seq<Op>) {
    && (forall i | 0 <= i < |ops| :: 0 < ops[i].now && clock <= ops[i].now)
    && (forall i, j | 0 <= i < j < |ops| :: ops[i].now <= ops[j].now)
  }

  function ClockAfter(clock: Time, ops: seq<Op>): Time {
    if ops == [] then clock else ops[|ops| - 1].now
  }
}
