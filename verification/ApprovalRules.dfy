/** The pure validators of the approval gate: identifiers, languages, requests
    and the record check that guards every load from durable storage. */
module ApprovalRules {
  import opened Wrappers
  import opened ApprovalTypes

  /** unicode.IsSpace. */
  predicate IsSpace(c: char) {
    || '\t' <= c <= '\r' || c == ' ' || c == '\U{0085}' || c == '\U{00A0}' || c == '\U{1680}'
    || '\U{2000}' <= c <= '\U{200A}' || c == '\U{2028}' || c == '\U{2029}'
    || c == '\U{202F}' || c == '\U{205F}' || c == '\U{3000}'
  }

  /** unicode.IsControl or the format category Cf. */
  predicate IsControlOrFormat(c: char) {
    || c <= '\U{001F}' || '\U{007F}' <= c <= '\U{009F}'
    || c == '\U{00AD}' || c == '\U{061C}' || c == '\U{06DD}' || c == '\U{070F}'
    || c == '\U{08E2}' || c == '\U{180E}' || c == '\U{FEFF}'
    || c == '\U{110BD}' || c == '\U{110CD}' || c == '\U{E0001}'
    || '\U{0600}' <= c <= '\U{0605}' || '\U{0890}' <= c <= '\U{0891}'
    || '\U{200B}' <= c <= '\U{200F}' || '\U{202A}' <= c <= '\U{202E}'
    || '\U{2060}' <= c <= '\U{2064}' || '\U{2066}' <= c <= '\U{206F}'
    || '\U{FFF9}' <= c <= '\U{FFFB}' || '\U{13430}' <= c <= '\U{1343F}'
    || '\U{1BCA0}' <= c <= '\U{1BCA3}' || '\U{1D173}' <= c <= '\U{1D17A}'
    || '\U{E0020}' <= c <= '\U{E007F}'
  }

  predicate Forbidden(c: char) { IsSpace(c) || IsControlOrFormat(c) }

  predicate ValidOpaque(value: string) {
    forall i | 0 <= i < |value| :: !Forbidden(value[i])
  }

  predicate ValidIdentifier(value: string) { value != "" && ValidOpaque(value) }

  predicate EmptyToken(t: Token) { t == Literal("") }

  predicate ValidOpaqueToken(t: Token) { t.Literal? ==> ValidOpaque(t.text) }

  /** Sixty-four lower-case hexadecimal digits, or an actual SHA-256 value. */
  predicate ValidDigest(t: Token) {
    t.Literal? ==>
      && |t.text| == 64
      && forall i | 0 <= i < 64 :: '0' <= t.text[i] <= '9' || 'a' <= t.text[i] <= 'f'
  }

  predicate AllSpace(s: string) { forall i | 0 <= i < |s| :: IsSpace(s[i]) }

  predicate ValidReason(s: string) {
    |s| <= 2048 && forall i | 0 <= i < |s| :: !IsControlOrFormat(s[i])
  }

  // ----- confirmation languages

  /** unicode.ToLower on the characters a supported tag can come from. */
  function ToLowerChar(c: char): char {
    if 'A' <= c <= 'Z' then c - 'A' + 'a'
    else if c == '\U{212A}' then 'k'
    else c
  }

  function ToLower(s: string): string { seq(|s|, i requires 0 <= i < |s| => ToLowerChar(s[i])) }

  const ZH_CN := "zh-CN"
  const ZH_TW := "zh-TW"
  const EN_US := "en-US"

  /** The canonical language tag, or None for an unsupported one. */
  function NormalizeLanguage(value: string): (r: Option<string>)
    ensures r.Some? ==> r.value == ZH_CN || r.value == ZH_TW || r.value == EN_US
  {
    if value == "" then Some(ZH_CN)
    else if !ValidOpaque(value) then None
    else
      var tag := ToLower(value);
      if tag == "zh" || tag == "zh-cn" || tag == "zh-hans" then Some(ZH_CN)
      else if tag == "zh-tw" || tag == "zh-hk" || tag == "zh-hant" then Some(ZH_TW)
      else if tag == "en" || tag == "en-us" || tag == "en-gb" then Some(EN_US)
      else None
  }

  function ExpectedPhrase(language: string): (r: Option<string>)
    ensures r.Some? ==> r.value != ""
  {
    match NormalizeLanguage(language)
    case None => None
    case Some(canonical) =>
      if canonical == ZH_CN then Some("\U{786E}\U{8BA4}")
      else if canonical == ZH_TW then Some("\U{78BA}\U{8A8D}")
      else Some("CONFIRM")
  }

  lemma CanonicalTagsAreFixed()
    ensures NormalizeLanguage(ZH_CN) == Some(ZH_CN)
    ensures NormalizeLanguage(ZH_TW) == Some(ZH_TW)
    ensures NormalizeLanguage(EN_US) == Some(EN_US)
  {
    assert ToLower(ZH_CN) == "zh-cn";
    assert ToLower(EN_US) == "en-us";
    assert ToLower(ZH_TW) == "zh-tw";
    assert "zh-tw"[3] != "zh-cn"[3];
    assert "en-us"[0] != "zh-cn"[0] && "en-us"[0] != "zh-tw"[0] && "en-us"[0] != "zh-hk"[0];
  }

  /** Canonical tags are fixed points, so a stored language validates again. */
  lemma NormalizeIsIdempotent(value: string)
    requires NormalizeLanguage(value).Some?
    ensures NormalizeLanguage(NormalizeLanguage(value).value) == NormalizeLanguage(value)
  {
    CanonicalTagsAreFixed();
  }

  // ----- requests

  predicate HasPrefix(s: string, p: string) { p <= s }

  predicate SensitiveScope(scope: string) {
    || HasPrefix(scope, "crp:") || HasPrefix(scope, "cluster:")
    || HasPrefix(scope, "kms:") || HasPrefix(scope, "token:")
  }

  predicate HighRisk(r: Request) { r.risk == High || r.risk == Emergency }

  /** Request.sensitive, which is also requiresThirdConfirmation. */
  predicate Sensitive(r: Request) {
    r.untrusted || r.test || r.tokenOperation || r.kmsOperation || r.clusterOperation || HighRisk(r)
  }

  function Shape(r: Request): IntentShape {
    IntentShape(r.id, r.risk, r.scope, r.policyEpoch, r.ttl, r.preApproved, r.untrusted, r.test,
                r.tokenOperation, r.kmsOperation, r.clusterOperation, r.breakGlass, r.workflowDigest)
  }

  /** Fills in an omitted nonce and intent digest from the request itself. */
  function FillTokens(r: Request): (n: Result<Request>)
    ensures n.Ok? ==> n.value.id == r.id && n.value.scope == r.scope && n.value.actor == r.actor
  {
    if !ValidOpaqueToken(r.nonce) then Err(InvalidRequest)
    else
      var r' := if EmptyToken(r.nonce)
                then r.(nonce := NonceHash(r.id, r.scope, r.risk, r.actor)) else r;
      if EmptyToken(r.intentDigest) then Ok(r'.(intentDigest := IntentHash(Shape(r'))))
      else if !ValidDigest(r.intentDigest) then Err(InvalidRequest)
      else Ok(r')
  }

  predicate WellFormedNames(r: Request) {
    && ValidIdentifier(r.id) && ValidIdentifier(r.scope) && ValidIdentifier(r.actor)
    && ValidIdentifier(r.sessionID) && ValidOpaque(r.workflowDigest)
  }

  function EscalatedRisk(r: Request): Risk {
    if SensitiveScope(r.scope) && r.risk != Emergency then High else r.risk
  }

  function NormalizeRequest(r: Request): (n: Result<Request>)
    ensures n.Ok? ==> n.value.id == r.id && n.value.scope == r.scope && n.value.actor == r.actor
  {
    if SensitiveScope(r.scope) && r.preApproved then Err(InvalidRequest)
    else if !WellFormedNames(r) || r.language == "" then Err(InvalidRequest)
    else match NormalizeLanguage(r.language)
         case None => Err(InvalidRequest)
         case Some(language) => FillTokens(r.(risk := EscalatedRisk(r), language := language))
  }

  function ValidateRequest(r: Request): Outcome {
    if !WellFormedNames(r) || r.ttl <= 0 || r.language == ""
       || !ValidDigest(r.intentDigest) || EmptyToken(r.nonce) || !ValidOpaqueToken(r.nonce)
    then Fail(InvalidRequest)
    else if NormalizeLanguage(r.language) != Some(r.language) then Fail(InvalidRequest)
    else if r.ttl > MAX_APPROVAL_TTL then Fail(TTLExceeded)
    else if r.risk.OtherRisk? then Fail(InvalidRequest)
    else if r.risk == Emergency && !r.breakGlass then Fail(BreakGlassRequired)
    else if SensitiveScope(r.scope) && (r.preApproved || !HighRisk(r)) then Fail(InvalidRequest)
    else Pass
  }

  // ----- records

  predicate CommitMatches(r: Record, commit: Commit) {
    && r.status == Approved && commit.requestID == r.id
    && ValidIdentifier(commit.confirmationID) && ValidIdentifier(commit.actor)
    && commit.scope == r.request.scope && commit.policyEpoch == r.request.policyEpoch
    && commit.intentDigest == r.request.intentDigest
    && commit.workflowDigest == r.request.workflowDigest
    && ValidIdentifier(commit.sessionID) && commit.nonce == r.request.nonce
    && commit.expiresAt == r.expiresAt
    && commit.issuedAt != 0 && r.submittedAt <= commit.issuedAt <= r.expiresAt
  }

  /** What a non-pre-approved commit demands of the confirmation beside it. */
  predicate InteractiveCommit(r: Record, commit: Commit) {
    var c := r.confirmation;
    && c.confirmationID != "" && c.local && c.actor == commit.actor
    && c.sessionID == commit.sessionID
    && (Sensitive(r.request) ==> c.step == 3 && c.thirdConfirmation)
  }

  predicate InteractiveConfirmation(r: Record) {
    var c := r.confirmation;
    && c.warningReadAt != 0 && c.secondConfirmation && (c.passwordConfirmed || c.totpConfirmed)
    && 2 <= c.step <= 3
    && (Sensitive(r.request) && c.step == 3 ==> c.thirdConfirmation)
  }

  predicate ConfirmationMatches(r: Record) {
    var c := r.confirmation;
    && ValidIdentifier(c.confirmationID) && ValidIdentifier(c.actor) && ValidIdentifier(c.sessionID)
    && c.scope == r.request.scope && c.policyEpoch == r.request.policyEpoch
    && c.intentDigest == r.request.intentDigest && c.workflowDigest == r.request.workflowDigest
    && c.nonce == r.request.nonce && c.language == r.request.language && c.phrase != ""
    && c.ttl == r.request.ttl
    && (r.status == Approved && r.commit.Some? ==> c.confirmationID == r.commit.value.confirmationID)
    && (!r.request.preApproved ==> InteractiveConfirmation(r))
  }

  /** ValidateRecordForAdapter. */
  function ValidateRecord(r: Record): Outcome {
    if !ValidIdentifier(r.id) || r.request.id != r.id then Fail(InvalidRequest)
    else if ValidateRequest(r.request).Fail? then ValidateRequest(r.request)
    else if r.submittedAt == 0 || r.expiresAt == 0 || r.expiresAt < r.submittedAt
            || r.expiresAt != r.submittedAt + r.request.ttl then Fail(InvalidRequest)
    else if r.status == Approved && r.commit.None? then Fail(InvalidRequest)
    else
      var checked := if r.commit.Some? then ValidateCommit(r, r.commit.value) else Pass;
      if checked.Fail? then checked
      else if r.confirmation.confirmationID == "" then Pass
      else if !ConfirmationMatches(r) then Fail(InvalidRequest)
      else if ExpectedPhrase(r.confirmation.language) != Some(r.confirmation.phrase)
      then Fail(InvalidRequest)
      else Pass
  }

  function ValidateCommit(r: Record, commit: Commit): Outcome {
    if commit.risk != r.request.risk || commit.ttl != r.request.ttl
       || commit.language != r.request.language then Fail(InvalidRequest)
    else if !r.request.preApproved && !InteractiveCommit(r, commit) then Fail(InvalidRequest)
    else if !r.request.preApproved && HighRisk(r.request)
            && (commit.actor == r.request.actor || commit.sessionID == r.request.sessionID)
    then Fail(InvalidActor)
    else if !CommitMatches(r, commit) then Fail(InvalidRequest)
    else Pass
  }

  /** Two confirmations of one two-click flow must agree on everything but the third click. */
  function SameCheckpoint(previous: Confirmation, current: Confirmation): Outcome {
    if previous.confirmationID != current.confirmationID then Fail(ConfirmationReplay)
    else if previous.scope != current.scope then Fail(ScopeChanged)
    else if previous.intentDigest != current.intentDigest then Fail(IntentChanged)
    else if previous.nonce != current.nonce then Fail(IntentChanged)
    else if previous.policyEpoch != current.policyEpoch then Fail(EpochChanged)
    else if previous.sessionID != current.sessionID then Fail(SessionChanged)
    else if previous.language != current.language || previous.phrase != current.phrase
    then Fail(ConfirmationLanguage)
    else if previous.warningReadAt == 0 || previous.warningReadAt != current.warningReadAt
    then Fail(ConfirmationSequence)
    else if previous.actor != current.actor || previous.role != current.role
            || previous.local != current.local || previous.breakGlass != current.breakGlass
            || previous.breakGlassReason != current.breakGlassReason
            || previous.passwordConfirmed != current.passwordConfirmed
            || previous.totpConfirmed != current.totpConfirmed
            || previous.secondConfirmation != current.secondConfirmation
    then Fail(ConfirmationSequence)
    else Pass
  }
}
