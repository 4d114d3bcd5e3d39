/** The gate's validators, which answer with the first thing wrong, told by what they let through. */
module GateChecks {
  import opened Wrappers
  import opened ApprovalTypes
  import opened ApprovalRules
  import opened ApprovalGate

  // ----- requests

  /** A request the gate can keep, whatever its state. */
  ghost predicate ProperRequest(r: Request) {
    && ValidIdentifier(r.id) && ValidIdentifier(r.scope) && ValidIdentifier(r.actor) && ValidIdentifier(r.sessionID)
    && ValidOpaque(r.workflowDigest) && 0 < r.ttl <= MAX_APPROVAL_TTL
    && r.language != "" && NormalizeLanguage(r.language) == Some(r.language)
    && ValidDigest(r.intentDigest) && !EmptyToken(r.nonce) && ValidOpaqueToken(r.nonce)
    && !r.risk.OtherRisk? && (r.risk == Emergency ==> r.breakGlass)
    && (SensitiveScope(r.scope) ==> !r.preApproved && (r.risk == High || r.risk == Emergency))
  }

  lemma RequestIff(r: Request)
    ensures ValidateRequest(r).Pass? <==> ProperRequest(r)
  {
    hide NormalizeLanguage, ValidOpaque, ValidDigest, SensitiveScope;
  }

  /** What a caller may ask for: a missing language, nonce or intent is no fault of the last two. */
  ghost predicate Admissible(g: Gate, raw: Request) {
    && ValidIdentifier(raw.id) && ValidIdentifier(raw.scope) && ValidIdentifier(raw.actor) && ValidIdentifier(raw.sessionID)
    && ValidOpaque(raw.workflowDigest) && 0 < raw.ttl <= MAX_APPROVAL_TTL
    && raw.language != "" && NormalizeLanguage(raw.language).Some?
    && (EmptyToken(raw.intentDigest) || ValidDigest(raw.intentDigest)) && ValidOpaqueToken(raw.nonce)
    && (raw.risk.OtherRisk? ==> SensitiveScope(raw.scope)) && (raw.risk == Emergency ==> raw.breakGlass)
    && (SensitiveScope(raw.scope) ==> !raw.preApproved)
    && raw.policyEpoch == g.policyEpoch && raw.id !in g.requests
  }

  /** The request as it is kept: a sensitive scope makes it high-risk, the language is canonical, and a
      missing nonce or intent is derived from the request itself. */
  ghost function Kept(raw: Request): Request
    requires NormalizeLanguage(raw.language).Some?
  {
    var risk := if SensitiveScope(raw.scope) && raw.risk != Emergency then High else raw.risk;
    Filled(raw.(risk := risk, language := NormalizeLanguage(raw.language).value))
  }

  /** Missing tokens are hashes of the request. */
  ghost function Filled(r: Request): Request {
    r.(nonce := if EmptyToken(r.nonce) then NonceHash(r.id, r.scope, r.risk, r.actor) else r.nonce,
       intentDigest := if EmptyToken(r.intentDigest) then IntentHash(Shape(r)) else r.intentDigest)
  }

  lemma ShapeHasNoNonce(r: Request, nonce: Token)
    ensures Shape(r.(nonce := nonce)) == Shape(r)
  {
  }

  lemma FilledIff(r: Request)
    ensures FillTokens(r).Ok? <==> ValidOpaqueToken(r.nonce) && (EmptyToken(r.intentDigest) || ValidDigest(r.intentDigest))
    ensures FillTokens(r).Ok? ==> FillTokens(r).value == Filled(r)
  {
    ShapeHasNoNonce(r, NonceHash(r.id, r.scope, r.risk, r.actor));
    hide Shape, ValidDigest, ValidOpaqueToken;
  }

  lemma NormalizationIff(raw: Request)
    ensures NormalizeRequest(raw).Ok? <==>
      && (SensitiveScope(raw.scope) ==> !raw.preApproved) && WellFormedNames(raw)
      && raw.language != "" && NormalizeLanguage(raw.language).Some?
      && (EmptyToken(raw.intentDigest) || ValidDigest(raw.intentDigest)) && ValidOpaqueToken(raw.nonce)
    ensures NormalizeRequest(raw).Ok? ==> NormalizeRequest(raw).value == Kept(raw)
  {
    if NormalizeLanguage(raw.language).Some? {
      FilledIff(raw.(risk := EscalatedRisk(raw), language := NormalizeLanguage(raw.language).value));
    }
    hide FillTokens, Filled, NormalizeLanguage, WellFormedNames, ValidDigest, SensitiveScope, ValidOpaqueToken, EmptyToken;
  }

  /** What is left to check of a request once it is kept. */
  lemma KeptIff(raw: Request)
    requires WellFormedNames(raw) && raw.language != "" && NormalizeLanguage(raw.language).Some?
    requires (EmptyToken(raw.intentDigest) || ValidDigest(raw.intentDigest)) && ValidOpaqueToken(raw.nonce)
    requires SensitiveScope(raw.scope) ==> !raw.preApproved
    ensures ProperRequest(Kept(raw)) <==>
      && 0 < raw.ttl <= MAX_APPROVAL_TTL && (raw.risk.OtherRisk? ==> SensitiveScope(raw.scope))
      && (raw.risk == Emergency ==> raw.breakGlass)
  {
    NormalizeIsIdempotent(raw.language);
    hide NormalizeLanguage, ValidOpaque, SensitiveScope;
  }

  /** A request is admitted exactly when it is admissible, and kept like that. */
  lemma AdmissionIff(g: Gate, raw: Request)
    ensures AdmitRequest(g, raw).Ok? <==> Admissible(g, raw)
    ensures AdmitRequest(g, raw).Ok? ==> AdmitRequest(g, raw).value == Kept(raw)
  {
    hide NormalizeRequest, ValidateRequest, NormalizeLanguage, ValidOpaque, ValidDigest, SensitiveScope, ProperRequest, ValidOpaqueToken;
    NormalizationIff(raw);
    if NormalizeRequest(raw).Ok? {
      KeptIff(raw);
      RequestIff(Kept(raw));
    }
  }

  // ----- languages

  const CHINESE: set<string> := {"", "zh", "zh-cn", "zh-hans"}
  const TRADITIONAL: set<string> := {"zh-tw", "zh-hk", "zh-hant"}
  const ENGLISH: set<string> := {"en", "en-us", "en-gb"}

  lemma TagIsOpaque(value: string)
    requires ToLower(value) in CHINESE + TRADITIONAL + ENGLISH
    ensures ValidOpaque(value)
  {
    forall i | 0 <= i < |value|
      ensures !Forbidden(value[i])
    {
      assert ToLower(value)[i] == ToLowerChar(value[i]);
      TagChars(ToLower(value), i);
      LowerIsNotForbidden(value[i]);
    }
  }

  lemma TagChars(tag: string, i: nat)
    requires tag in CHINESE + TRADITIONAL + ENGLISH && i < |tag|
    ensures 'a' <= tag[i] <= 'z' || tag[i] == '-'
  {
  }

  lemma LowerIsNotForbidden(c: char)
    requires 'a' <= ToLowerChar(c) <= 'z' || ToLowerChar(c) == '-'
    ensures !Forbidden(c)
  {
  }

  lemma EmptyIsEmpty(value: string)
    ensures ToLower(value) == "" <==> value == ""
  {
    assert |ToLower(value)| == |value|;
  }

  /** Ten tags are known, in any case, and each language has its own tag and phrase. */
  lemma LanguagesAre(value: string)
    ensures NormalizeLanguage(value) == Some("zh-CN") <==> ToLower(value) in CHINESE
    ensures NormalizeLanguage(value) == Some("zh-TW") <==> ToLower(value) in TRADITIONAL
    ensures NormalizeLanguage(value) == Some("en-US") <==> ToLower(value) in ENGLISH
    ensures ExpectedPhrase("zh-CN") == Some("\U{786E}\U{8BA4}") && ExpectedPhrase("zh-TW") == Some("\U{78BA}\U{8A8D}")
    ensures ExpectedPhrase("en-US") == Some("CONFIRM")
  {
    CanonicalTagsAreFixed();
    EmptyIsEmpty(value);
    if ToLower(value) in CHINESE + TRADITIONAL + ENGLISH { TagIsOpaque(value); }
    DifferentTags();
    hide ToLower, ValidOpaque;
  }

  lemma DifferentTags()
    ensures ZH_CN != ZH_TW && ZH_CN != EN_US && ZH_TW != EN_US
    ensures CHINESE !! TRADITIONAL && CHINESE !! ENGLISH && TRADITIONAL !! ENGLISH
  {
    assert ZH_CN[3] != ZH_TW[3];
    assert ZH_CN[0] != EN_US[0];
  }

  // ----- confirmations

  /** Two clicks of one flow: everything but the third click, and what the gate fills in, is the same. */
  lemma SameCheckpointIff(previous: Confirmation, current: Confirmation)
    ensures SameCheckpoint(previous, current).Pass? <==>
      && previous.warningReadAt != 0
      && current == previous.(thirdConfirmation := current.thirdConfirmation, step := current.step, ttl := current.ttl,
                              workflowDigest := current.workflowDigest)
  {
  }

  /** A confirmation somebody may give for the request at this time. */
  ghost predicate Acceptable(g: Gate, now: Time, id: string, c: Confirmation)
    requires id in g.requests
  {
    var req := g.requests[id].request;
    && req.policyEpoch == g.policyEpoch == c.policyEpoch && c.scope == req.scope
    && ValidIdentifier(c.actor) && ValidIdentifier(c.sessionID) && ValidIdentifier(c.confirmationID)
    && c.confirmationID !in g.usedIDs && (c.confirmationID in g.owners ==> g.owners[c.confirmationID] == id)
    && c.local
    && (if req.risk == High || req.risk == Emergency then c.actor != req.actor && c.sessionID != req.sessionID
        else c.sessionID == req.sessionID)
    && c.language != "" && NormalizeLanguage(c.language) == Some(req.language)
    && ExpectedPhrase(req.language) == Some(c.phrase)
    && c.intentDigest == req.intentDigest && c.workflowDigest == req.workflowDigest
    && c.nonce == req.nonce && !EmptyToken(c.nonce) && (c.ttl == 0 || c.ttl == req.ttl)
    && c.warningReadAt != 0 && c.warningReadAt + WARNING_DELAY <= now
    && (c.passwordConfirmed || c.totpConfirmed) && c.secondConfirmation
    && (req.risk == Emergency ==>
          && req.breakGlass && c.breakGlass && !AllSpace(c.breakGlassReason) && ValidReason(c.breakGlassReason)
          && (c.role == SecurityAdmin || c.role == TenantOwner))
  }

  lemma ChecksIff(g: Gate, now: Time, id: string, c: Confirmation)
    requires id in g.requests
    ensures ConfirmationChecks(g, now, id, c).Pass? <==> Acceptable(g, now, id, c)
  {
    hide NormalizeLanguage, ExpectedPhrase, ValidOpaque, AllSpace, ValidReason;
  }

  /** What the gate makes of a confirmation it lets through. */
  ghost function Stamped(req: Request, c: Confirmation, step: nat): Confirmation {
    c.(language := req.language, ttl := req.ttl, step := step)
  }

  /** Which of the two clicks a confirmation of a sensitive request is, and whether it fits the one before. */
  ghost predicate Continues(prior: Confirmation, req: Request, c: Confirmation) {
    SameCheckpoint(prior, c.(language := req.language)).Pass?
  }

  /** A pending request in time is authorized by an acceptable confirmation, at once if it is not sensitive
      and else by the third click after a fitting second; it is checkpointed by the second click of a
      sensitive one, first or repeated. */
  lemma DecisionIff(g: Gate, now: Time, id: string, c: Confirmation)
    requires id in g.requests
    ensures var r := g.requests[id]; var prior := r.confirmation; var d := Decide(g, now, id, c);
      && (d.Expire? <==> r.status == Pending && r.expiresAt <= now)
      && (d.Authorize? <==>
            r.status == Pending && now < r.expiresAt && Acceptable(g, now, id, c)
            && (Sensitive(r.request) ==>
                  c.thirdConfirmation && prior.confirmationID != "" && prior.step >= 2 && Continues(prior, r.request, c)))
      && (d.Authorize? ==> d.c == Stamped(r.request, c, if Sensitive(r.request) then 3 else 2))
      && (d.Check? <==>
            r.status == Pending && now < r.expiresAt && Acceptable(g, now, id, c) && Sensitive(r.request)
            && !c.thirdConfirmation && (prior.confirmationID != "" ==> Continues(prior, r.request, c)))
      && (d.Check? ==> (d.first <==> prior.confirmationID == "") && (d.first ==> d.c == Stamped(r.request, c, 2)))
      && (d.Check? && !d.first ==> d.c == c.(language := r.request.language))
  {
    ChecksIff(g, now, id, c);
    hide ConfirmationChecks, SameCheckpoint, Acceptable, Sensitive;
  }

  /** Why a settled request cannot be confirmed. */
  lemma SettledDecision(g: Gate, now: Time, id: string, c: Confirmation)
    requires id in g.requests
    ensures var status, d := g.requests[id].status, Decide(g, now, id, c);
      && (status == Revoked ==> d == Reject(RevokedError)) && (status == Expired ==> d == Reject(ExpiredError))
      && (status == Approved ==> d == Reject(NotPending))
  {
    hide ConfirmationChecks, SameCheckpoint, Sensitive;
  }

  /** What an error says of a confirmation by itself. */
  ghost predicate Defective(e: Error, g: Gate, now: Time, id: string, c: Confirmation)
    requires id in g.requests
  {
    var req := g.requests[id].request;
    match e
    case EpochChanged => req.policyEpoch != g.policyEpoch || c.policyEpoch != req.policyEpoch
    case ScopeChanged => c.scope != req.scope
    case ActorRequired => c.actor == ""
    case InvalidActor => !ValidOpaque(c.actor) || (HighRisk(req) && (c.actor == req.actor || c.sessionID == req.sessionID))
    case ConfirmationRequired => c.confirmationID == ""
    case InvalidConfirmationID => !ValidOpaque(c.confirmationID)
    case ConfirmationReplay => c.confirmationID in g.usedIDs || (c.confirmationID in g.owners && g.owners[c.confirmationID] != id)
    case LocalConfirmation => !c.local
    case SessionRequired => !ValidIdentifier(c.sessionID)
    case SessionChanged => !HighRisk(req) && c.sessionID != req.sessionID
    case ConfirmationLanguage => c.language == "" || NormalizeLanguage(c.language) != Some(req.language)
    case ConfirmationPhrase => ExpectedPhrase(req.language) != Some(c.phrase)
    case IntentChanged => c.intentDigest != req.intentDigest || EmptyToken(c.nonce) || c.nonce != req.nonce
    case WorkflowChanged => c.workflowDigest != req.workflowDigest
    case TTLChanged => c.ttl != 0 && c.ttl != req.ttl
    case WarningDelay => c.warningReadAt == 0 || now < c.warningReadAt + WARNING_DELAY
    case PasswordConfirmation => !c.passwordConfirmed && !c.totpConfirmed
    case SecondConfirmation => !c.secondConfirmation
    case BreakGlassRequired => req.risk == Emergency && (!req.breakGlass || !c.breakGlass)
    case BreakGlassReason => req.risk == Emergency && AllSpace(c.breakGlassReason)
    case InvalidReason => req.risk == Emergency && !ValidReason(c.breakGlassReason)
    case BreakGlassActor => req.risk == Emergency && c.role != SecurityAdmin && c.role != TenantOwner
    case _ => false
  }

  /** The errors of the first checks. */
  ghost predicate Early(e: Error) {
    match e
    case EpochChanged | ScopeChanged | ActorRequired | InvalidActor | ConfirmationRequired | InvalidConfirmationID
      | ConfirmationReplay | LocalConfirmation | SessionRequired | SessionChanged => true
    case _ => false
  }

  lemma EarlyChecksAreTrue(g: Gate, now: Time, id: string, c: Confirmation)
    requires id in g.requests && ConfirmationChecks(g, now, id, c).Fail? && Early(ConfirmationChecks(g, now, id, c).error)
    ensures Defective(ConfirmationChecks(g, now, id, c).error, g, now, id, c)
  {
    BreakGlassErrors(g.requests[id].request, c);
    hide NormalizeLanguage, ExpectedPhrase, ValidOpaque, HighRisk, BreakGlassChecks;
  }

  lemma LateChecksAreTrue(g: Gate, now: Time, id: string, c: Confirmation)
    requires id in g.requests && ConfirmationChecks(g, now, id, c).Fail? && !Early(ConfirmationChecks(g, now, id, c).error)
    ensures Defective(ConfirmationChecks(g, now, id, c).error, g, now, id, c)
  {
    hide NormalizeLanguage, ExpectedPhrase, ValidOpaque, HighRisk, AllSpace, ValidReason;
  }

  lemma BreakGlassErrors(req: Request, c: Confirmation)
    ensures BreakGlassChecks(req, c).Fail? ==> !Early(BreakGlassChecks(req, c).error)
  {
    hide AllSpace, ValidReason;
  }

  lemma ChecksAreTrue(g: Gate, now: Time, id: string, c: Confirmation)
    requires id in g.requests && ConfirmationChecks(g, now, id, c).Fail?
    ensures Defective(ConfirmationChecks(g, now, id, c).error, g, now, id, c)
  {
    hide ConfirmationChecks, Defective;
    if Early(ConfirmationChecks(g, now, id, c).error) {
      EarlyChecksAreTrue(g, now, id, c);
    } else {
      LateChecksAreTrue(g, now, id, c);
    }
  }

  /** What an error says of a confirmation after an earlier one. */
  ghost predicate Discontinuous(e: Error, prior: Confirmation, req: Request, c: Confirmation) {
    match e
    case EpochChanged => prior.policyEpoch != c.policyEpoch
    case ScopeChanged => prior.scope != c.scope
    case ConfirmationReplay => prior.confirmationID != c.confirmationID
    case SessionChanged => prior.sessionID != c.sessionID
    case ConfirmationLanguage => prior.language != req.language || prior.phrase != c.phrase
    case IntentChanged => prior.intentDigest != c.intentDigest || prior.nonce != c.nonce
    case ConfirmationSequence => !Continues(prior, req, c)
    case _ => false
  }

  lemma DiscontinuityIsTrue(prior: Confirmation, req: Request, c: Confirmation)
    requires !Continues(prior, req, c)
    ensures Discontinuous(SameCheckpoint(prior, c.(language := req.language)).error, prior, req, c)
  {
  }

  /** What an error says of a confirmation of a known request. */
  ghost predicate Faulty(e: Error, g: Gate, now: Time, id: string, c: Confirmation)
    requires id in g.requests
  {
    var r := g.requests[id];
    var prior := r.confirmation;
    || (e == RevokedError && r.status == Revoked) || (e == ExpiredError && r.status == Expired)
    || (e == NotPending && r.status == Approved) || Defective(e, g, now, id, c)
    || (Sensitive(r.request) && prior.confirmationID != "" && Discontinuous(e, prior, r.request, c))
    || (e == ConfirmationSequence && Sensitive(r.request) && c.thirdConfirmation && (prior.confirmationID == "" || prior.step < 2))
  }

  /** A confirmation that is turned down is told something that is the matter with it. */
  lemma RejectionsAreTrue(g: Gate, now: Time, id: string, c: Confirmation)
    requires id in g.requests && Decide(g, now, id, c).Reject?
    ensures Faulty(Decide(g, now, id, c).error, g, now, id, c)
  {
    if ConfirmationChecks(g, now, id, c).Fail? { ChecksAreTrue(g, now, id, c); }
    var r := g.requests[id];
    if !Continues(r.confirmation, r.request, c) { DiscontinuityIsTrue(r.confirmation, r.request, c); }
    hide ConfirmationChecks, Defective, Discontinuous, Sensitive, SameCheckpoint;
  }

  // ----- records

  /** The commit of a record: its own request's, from the confirmation, and not before it was submitted. */
  ghost predicate ProperCommit(r: Record, k: Commit) {
    var req := r.request;
    && r.status == Approved && k.requestID == r.id && ValidIdentifier(k.confirmationID) && ValidIdentifier(k.actor)
    && ValidIdentifier(k.sessionID) && k.scope == req.scope && k.policyEpoch == req.policyEpoch && k.risk == req.risk
    && k.ttl == req.ttl && k.language == req.language && k.intentDigest == req.intentDigest
    && k.workflowDigest == req.workflowDigest && k.nonce == req.nonce && k.expiresAt == r.expiresAt
    && k.issuedAt != 0 && r.submittedAt <= k.issuedAt <= r.expiresAt
    && (!req.preApproved ==>
          && r.confirmation.confirmationID != "" && r.confirmation.local && r.confirmation.actor == k.actor
          && r.confirmation.sessionID == k.sessionID
          && (Sensitive(req) ==> r.confirmation.step == 3 && r.confirmation.thirdConfirmation)
          && (HighRisk(req) ==> k.actor != req.actor && k.sessionID != req.sessionID))
  }

  ghost predicate ProperConfirmation(r: Record) {
    var c, req := r.confirmation, r.request;
    && ValidIdentifier(c.confirmationID) && ValidIdentifier(c.actor) && ValidIdentifier(c.sessionID)
    && c.scope == req.scope && c.policyEpoch == req.policyEpoch && c.intentDigest == req.intentDigest
    && c.workflowDigest == req.workflowDigest && c.nonce == req.nonce && c.language == req.language && c.ttl == req.ttl
    && ExpectedPhrase(c.language) == Some(c.phrase)
    && (r.status == Approved && r.commit.Some? ==> c.confirmationID == r.commit.value.confirmationID)
    && (!req.preApproved ==>
          && c.warningReadAt != 0 && c.secondConfirmation && (c.passwordConfirmed || c.totpConfirmed) && 2 <= c.step <= 3
          && (Sensitive(req) && c.step == 3 ==> c.thirdConfirmation))
  }

  /** What the adapter's check lets through. */
  ghost predicate ProperRecord(r: Record) {
    && ValidIdentifier(r.id) && r.request.id == r.id && ProperRequest(r.request)
    && r.submittedAt != 0 && r.expiresAt == r.submittedAt + r.request.ttl
    && (r.status == Approved <==> r.commit.Some?) && (r.commit.Some? ==> ProperCommit(r, r.commit.value))
    && (r.confirmation.confirmationID != "" ==> ProperConfirmation(r))
  }

  lemma CommitIff(r: Record, k: Commit)
    ensures ValidateCommit(r, k).Pass? <==> ProperCommit(r, k)
  {
    hide ValidOpaque, Sensitive;
  }

  lemma RecordIff(r: Record)
    ensures ValidateRecord(r).Pass? <==> ProperRecord(r)
  {
    RequestIff(r.request);
    if r.commit.Some? { CommitIff(r, r.commit.value); }
    hide ValidateRequest, ValidateCommit, ProperRequest, ValidOpaque, Sensitive, NormalizeLanguage;
    PhraseIsNotEmpty(r.confirmation.language);
    hide ExpectedPhrase;
    if r.commit.Some? && r.status != Approved { NoCommitUnapproved(r, r.commit.value); }
    hide ProperCommit;
  }

  lemma NoCommitUnapproved(r: Record, k: Commit)
    requires r.status != Approved
    ensures !ProperCommit(r, k)
  {
  }

  lemma PhraseIsNotEmpty(language: string)
    ensures ExpectedPhrase(language).Some? ==> ExpectedPhrase(language).value != ""
  {
  }

  // ----- withdrawals

  /** Why a revocation is turned down. */
  lemma RevokeRefusals(g: Gate, id: string, actor: string, reason: string)
    ensures var a := RevokeChecks(g, id, actor, reason);
      && (a == Fail(NotFound) <==> id !in g.requests)
      && (a == Fail(RevokedError) <==> id in g.requests && g.requests[id].status == Revoked)
      && (a == Fail(ActorRequired) ==> actor == "") && (a == Fail(InvalidActor) ==> !ValidOpaque(actor))
      && (a == Fail(ReasonRequired) ==> AllSpace(reason)) && (a == Fail(InvalidReason) ==> !ValidReason(reason))
      && (a.Fail? ==> a.error in {NotFound, RevokedError, ActorRequired, InvalidActor, ReasonRequired, InvalidReason})
  {
    hide ValidOpaque, AllSpace, ValidReason;
  }

  lemma RevokeChecksIff(g: Gate, id: string, actor: string, reason: string)
    ensures RevokeChecks(g, id, actor, reason).Pass? <==>
      && id in g.requests && g.requests[id].status != Revoked && ValidIdentifier(actor)
      && !AllSpace(reason) && ValidReason(reason)
  {
    hide ValidOpaque, AllSpace, ValidReason;
  }

  /** Why a consumption is turned down, for a record that passes the adapter's check. */
  lemma ConsumeRefusals(g: Gate, now: Time, id: string, scope: string, intent: Token)
    requires id in g.requests ==> ProperRecord(g.requests[id])
    ensures var a := ConsumeChecks(g, now, id, scope, intent);
      && (a == Fail(NotFound) <==> id !in g.requests)
      && (a == Fail(NotPending) <==> id in g.requests && g.requests[id].status != Approved)
      && (a == Fail(EpochChanged) ==> g.requests[id].request.policyEpoch != g.policyEpoch)
      && (a == Fail(ExpiredError) ==> g.requests[id].expiresAt <= now)
      && (a == Fail(IntentChanged) ==> g.requests[id].request.scope != scope || g.requests[id].request.intentDigest != intent)
      && (a.Fail? ==> a.error in {NotFound, NotPending, EpochChanged, ExpiredError, IntentChanged})
  {
    if id in g.requests {
      RecordIff(g.requests[id]);
      assert g.requests[id].status == Approved ==> g.requests[id].commit.Some?;
    }
    hide ValidateRecord, ProperRecord;
  }

  lemma ConsumeChecksIff(g: Gate, now: Time, id: string, scope: string, intent: Token)
    ensures ConsumeChecks(g, now, id, scope, intent).Pass? <==>
      && id in g.requests && g.requests[id].status == Approved && g.requests[id].commit.Some?
      && g.requests[id].request.policyEpoch == g.policyEpoch && now < g.requests[id].expiresAt
      && g.requests[id].request.scope == scope && g.requests[id].request.intentDigest == intent
      && ProperRecord(g.requests[id])
  {
    if id in g.requests { RecordIff(g.requests[id]); }
    hide ValidateRecord, ProperRecord;
  }
}
