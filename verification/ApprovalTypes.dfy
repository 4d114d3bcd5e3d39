/** The values the approval gate works on: requests, confirmations, commits,
    audit events and records. Times are nanoseconds, with 0 for Go's zero time.

    Digests are symbolic: a hash is the constructor application that holds its
    pre-image, so hashing is injective by construction and never empty. */
module ApprovalTypes {
  import opened Wrappers

  type Time = nat

  const WARNING_DELAY: int := 10_000_000_000
  const MAX_APPROVAL_TTL: int := 1_800_000_000_000

  datatype Risk = Low | Medium | High | Emergency | OtherRisk(text: string)

  datatype Status = Pending | Approved | Revoked | Expired

  datatype Role = Operator | SecurityAdmin | TenantOwner | OtherRole(text: string)

  datatype AuditType = Submitted | Authorized | Checkpoint | Rejected | RevokedEvent | ExpiredEvent

  datatype Error =
    | InvalidRequest | DuplicateRequest | NotFound | NotPending | WarningDelay
    | PasswordConfirmation | SecondConfirmation | ThirdConfirmation | ConfirmationRequired
    | LocalConfirmation | ConfirmationReplay | ActorRequired | InvalidActor
    | SessionRequired | SessionChanged | InvalidConfirmationID | ConfirmationLanguage
    | ConfirmationPhrase | IntentChanged | WorkflowChanged | TTLChanged
    | ConfirmationSequence | ReasonRequired | InvalidReason | ScopeChanged | EpochChanged
    | ExpiredError | RevokedError | BreakGlassRequired | BreakGlassReason | BreakGlassActor
    | TTLExceeded
    | InvalidPersistence | IdempotencyConflict | EventSequence | BindingConflict
    | ApprovalNotFound | LedgerRefused

  type Result<+T> = Try<T, Error>

  datatype Outcome = Pass | Fail(error: Error)

  /** Text chosen by a caller, or a SHA-256 value identified by its pre-image. */
  datatype Token =
    | Literal(text: string)
    | IntentHash(shape: IntentShape)
    | NonceHash(id: string, scope: string, risk: Risk, actor: string)
    | ToolIntentHash(tool: string, sensitivity: Sensitivity, args: Sum, preview: Sum, diff: Sum)

  /** How dangerous an AI tool is. */
  datatype Sensitivity = ReadOnly | Modify | Destructive

  /** The salted digests an AI tool request carries. */
  datatype Sum = NoSum | ArgsSum(salt: string, args: string) | PreviewSum(salt: string, preview: string) | DiffSum(diff: string)

  datatype IntentShape = IntentShape(
    id: string, risk: Risk, scope: string, policyEpoch: nat, ttl: int,
    preApproved: bool, untrusted: bool, test: bool, tokenOperation: bool,
    kmsOperation: bool, clusterOperation: bool, breakGlass: bool, workflowDigest: string)

  datatype Request = Request(
    id: string, risk: Risk, scope: string, policyEpoch: nat, ttl: int,
    preApproved: bool, untrusted: bool, test: bool, tokenOperation: bool,
    kmsOperation: bool, clusterOperation: bool, breakGlass: bool,
    actor: string, sessionID: string, language: string,
    intentDigest: Token, workflowDigest: string, nonce: Token)

  datatype Confirmation = Confirmation(
    warningReadAt: Time, passwordConfirmed: bool, secondConfirmation: bool,
    thirdConfirmation: bool, confirmationID: string, actor: string, role: Role,
    scope: string, policyEpoch: nat, ttl: int, local: bool, breakGlass: bool,
    breakGlassReason: string, sessionID: string, language: string, phrase: string,
    intentDigest: Token, workflowDigest: string, nonce: Token, totpConfirmed: bool, step: nat)

  /** Go's zero Confirmation, held by a record nobody has confirmed. */
  const NO_CONFIRMATION: Confirmation :=
    Confirmation(0, false, false, false, "", "", OtherRole(""), "", 0, 0, false, false,
                 "", "", "", "", Literal(""), "", Literal(""), false, 0)

  datatype Commit = Commit(
    requestID: string, confirmationID: string, actor: string, scope: string,
    policyEpoch: nat, risk: Risk, ttl: int, issuedAt: Time, expiresAt: Time,
    workflowDigest: string, sessionID: string, language: string,
    intentDigest: Token, nonce: Token)

  datatype Reason = Plain(text: string) | Because(error: Error)

  datatype AuditEvent = AuditEvent(
    sequence: nat, kind: AuditType, at: Time, requestID: string, actor: string,
    scope: string, policyEpoch: nat, confirmationID: string, reason: Reason,
    workflowDigest: string, intentDigest: Token, sessionID: string, step: nat,
    nonce: Token, previousHash: Digest, hash: Digest)

  datatype Digest = NoHash | Sha(event: AuditEvent)

  datatype Record = Record(
    id: string, request: Request, status: Status, submittedAt: Time, expiresAt: Time,
    confirmation: Confirmation, commit: Option<Commit>)
}
