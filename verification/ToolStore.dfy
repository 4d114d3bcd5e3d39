/** The AI approval store: tool requests from pending to executed, kept in memory and in
    one file, with rollback when a write fails, reload after a crash and bounded eviction.
    Argument and preview digests are symbolic. */
module ToolStore {
  import opened ApprovalTypes
  import opened ApprovalRules

  datatype ToolStatus = Waiting | Granted | Executing | Refused | Executed | Failed

  datatype Actor = Actor(subject: string, sessionID: string, username: string, role: string)

  const NOBODY := Actor("", "", "", "")

  datatype ToolRequest = ToolRequest(
    id: string, toolName: string, salt: string, argsDigest: Sum, previewDigest: Sum,
    sensitivity: Sensitivity, diff: string, status: ToolStatus, requester: Actor,
    approvedBy: Actor, rejectedBy: Actor, createdAt: Time, expiresAt: Time, decidedAt: Time, consumedAt: Time)

  datatype StoreError =
    | UnknownRequest | RequestExpired | GateRequired | AlreadyDecided | NotGranted | NotExecuting
    | WrongRequester | WrongTool | WrongArguments | StalePreview | CapacityExhausted | WriteFailed

  datatype Answer = Done(request: ToolRequest) | Refusal(error: StoreError)

  type Requests = map<string, ToolRequest>

  /** The map in memory, the map in the file, and whether a file is in use. */
  datatype Store = Store(requests: Requests, file: Requests, persistent: bool, capacity: nat, ttl: nat)

  /** How a file write fares: it works, fails before the file changed, or fails after. */
  datatype Write = Written | LostBefore | LostAfter

  // ----- pure checks

  predicate Expires(r: ToolRequest, now: Time) { r.expiresAt != 0 && r.expiresAt <= now }

  predicate Actionable(r: ToolRequest) { r.status == Waiting || r.status == Granted }

  predicate Completed(r: ToolRequest) { r.status == Refused || r.status == Executed || r.status == Failed }

  predicate RequesterMatches(r: ToolRequest, actor: Actor) {
    r.requester.subject != "" ==>
      && actor.subject == r.requester.subject
      && (r.requester.sessionID != "" ==> actor.sessionID == r.requester.sessionID)
  }

  function PreviewDigest(preview: string, salt: string): Sum {
    if AllSpace(preview) then NoSum else PreviewSum(salt, preview)
  }

  // ----- persisting

  /** The map in memory is to become m: the store that persistLocked leaves, and whether it
      worked. When it did not, the caller has put the old map back. */
  function Persist(s: Store, m: Requests, write: Write): (Store, bool) {
    if !s.persistent then (s.(requests := m), true)
    else match write
         case Written => (s.(requests := m, file := m), true)
         case LostBefore => (s, false)
         case LostAfter => (s.(file := m), false)
  }

  /** One request changes, or stays as it was when the write fails. */
  function Update(s: Store, id: string, r: ToolRequest, write: Write): (Store, Answer) {
    var (s', ok) := Persist(s, s.requests[id := r], write);
    (s', if ok then Done(r) else Refusal(WriteFailed))
  }

  // ----- eviction

  predicate Before(a: ToolRequest, b: ToolRequest) {
    a.createdAt < b.createdAt || (a.createdAt == b.createdAt && LexLess(a.id, b.id))
  }

  predicate LexLess(s: string, t: string) {
    if t == "" then false
    else if s == "" then true
    else s[0] < t[0] || (s[0] == t[0] && LexLess(s[1..], t[1..]))
  }

  /** What is left once expired actionable requests are gone. */
  function Live(m: Requests, now: Time): Requests {
    map id | id in m && !(Expires(m[id], now) && Actionable(m[id])) :: m[id]
  }

  /** makeRoomLocked leaves kept of m: expired actionable requests go first, then completed
      ones, oldest first and only as many as capacity needs; nothing else ever goes. */
  ghost predicate MakesRoom(m: Requests, kept: Requests, now: Time, reserve: nat, capacity: nat) {
    var live := Live(m, now);
    && kept.Keys <= live.Keys && (forall id | id in kept :: kept[id] == m[id])
    && (forall id | id in live && id !in kept :: Completed(live[id]))
    && (forall a, b | a in live && a !in kept && b in kept && Completed(kept[b]) :: Before(live[a], kept[b]))
    && (|live| + reserve <= capacity ==> kept == live)
    && (|live| + reserve > capacity ==>
          || |kept| + reserve == capacity
          || (|kept| + reserve > capacity && forall id | id in kept :: !Completed(kept[id])))
  }

  // ----- the calls

  function NewRequest(s: Store, id: string, tool: string, sensitivity: Sensitivity, args: string, salt: string,
                      preview: string, diff: string, actor: Actor, now: Time): ToolRequest
  {
    ToolRequest(id, tool, salt, ArgsSum(salt, args), PreviewDigest(preview, salt), sensitivity, diff, Waiting,
                actor, NOBODY, NOBODY, now, now + s.ttl, 0, 0)
  }

  /** CreateForWithPreview, with `kept` what makeRoomLocked left. */
  function Create(s: Store, r: ToolRequest, kept: Requests, write: Write): (Store, Answer) {
    if |kept| >= s.capacity then (s, Refusal(CapacityExhausted))
    else
      var (s', ok) := Persist(s, kept[r.id := r], write);
      (s', if ok then Done(r) else Refusal(WriteFailed))
  }

  function Approve(s: Store, id: string, actor: Actor, gateAuthorized: bool, now: Time, write: Write): (Store, Answer) {
    if id !in s.requests then (s, Refusal(UnknownRequest))
    else
      var r := s.requests[id];
      if Expires(r, now) then (s, Refusal(RequestExpired))
      else if r.sensitivity == Destructive && !gateAuthorized then (s, Refusal(GateRequired))
      else if r.status == Granted then (s, Done(r))
      else if r.status != Waiting then (s, Refusal(AlreadyDecided))
      else Update(s, id, r.(status := Granted, decidedAt := now, approvedBy := actor), write)
  }

  function Reject(s: Store, id: string, actor: Actor, now: Time, write: Write): (Store, Answer) {
    if id !in s.requests then (s, Refusal(UnknownRequest))
    else
      var r := s.requests[id];
      if Expires(r, now) then (s, Refusal(RequestExpired))
      else if !Actionable(r) then (s, Refusal(AlreadyDecided))
      else Update(s, id, r.(status := Refused, decidedAt := now, rejectedBy := actor), write)
  }

  function Begin(s: Store, id: string, tool: string, args: string, preview: string, actor: Actor,
                 gateAuthorized: bool, now: Time, write: Write): (Store, Answer)
  {
    if id !in s.requests then (s, Refusal(UnknownRequest))
    else
      var r := s.requests[id];
      if Expires(r, now) then (s, Refusal(RequestExpired))
      else if r.status != Granted then (s, Refusal(NotGranted))
      else if r.sensitivity == Destructive && !gateAuthorized then (s, Refusal(GateRequired))
      else if !RequesterMatches(r, actor) then (s, Refusal(WrongRequester))
      else if r.toolName != tool then (s, Refusal(WrongTool))
      else if r.argsDigest != ArgsSum(r.salt, args) then (s, Refusal(WrongArguments))
      else if r.previewDigest != NoSum && r.previewDigest != PreviewDigest(preview, r.salt)
      then (s, Refusal(StalePreview))
      else Update(s, id, r.(status := Executing, consumedAt := now), write)
  }

  function Finish(s: Store, id: string, succeeded: bool, actor: Actor, gateAuthorized: bool, now: Time, write: Write)
    : (Store, Answer)
  {
    if id !in s.requests then (s, Refusal(UnknownRequest))
    else
      var r := s.requests[id];
      if r.status != Executing then (s, Refusal(NotExecuting))
      else if r.sensitivity == Destructive && !gateAuthorized then (s, Refusal(GateRequired))
      else if !RequesterMatches(r, actor) then (s, Refusal(WrongRequester))
      else Update(s, id, r.(status := if succeeded then Executed else Failed, decidedAt := now), write)
  }

  // ----- reload after a crash

  function Reloaded(r: ToolRequest, now: Time): ToolRequest {
    if r.status == Executing then r.(status := Failed, decidedAt := now) else r
  }

  /** loadLocked's next map: expired actionable requests dropped, interrupted ones failed. */
  function Recovered(file: Requests, now: Time): Requests {
    map id | id in file && !(Expires(file[id], now) && Actionable(file[id])) :: Reloaded(file[id], now)
  }

  /** The end of loadLocked: next was read and eviction left kept of it; too much active work
      is an error that keeps it all, and a map that differs from the file is written back. */
  function Adopt(s: Store, next: Requests, kept: Requests, write: Write): Store {
    if |kept| > s.capacity then s.(requests := next)
    else if kept == s.file || write == LostBefore then s.(requests := kept)
    else s.(requests := kept, file := kept)
  }

  /** A crash loses the memory; a new store reads the file, if there is one it can read. */
  function Restart(s: Store, kept: Requests, readable: bool, now: Time, write: Write): Store {
    var empty := s.(requests := map[]);
    if !s.persistent || !readable then empty else Adopt(empty, Recovered(s.file, now), kept, write)
  }
}
