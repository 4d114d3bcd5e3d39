/** The life of a tool request. Each call is accepted exactly when it should be and leaves what it should;
    and over any run of calls, lost writes, crashes and reloads, every status was brought about by the
    calls that may bring it about. */
module ToolStoreLifecycle {
  import opened ApprovalTypes
  import opened ApprovalRules
  import opened ToolStore
  import opened ToolStoreSafety

  // ----- one call with a working write

  /** Requests without an expiry never expire; others do when it is reached. */
  ghost predicate InTime(r: ToolRequest, now: Time) { r.expiresAt == 0 || now < r.expiresAt }

  /** The map with one request in a new version, everywhere it is kept. */
  ghost predicate Puts(s: Store, s': Store, r: ToolRequest, id: string) {
    && s'.requests == s.requests[id := r] && s'.file == (if s.persistent then s'.requests else s.file)
    && s' == s.(requests := s'.requests, file := s'.file)
  }

  /** An approval is accepted of an undecided, unexpired request, a destructive one only from the gate; it
      names the approver and the time, once. */
  lemma ApprovalIsExact(s: Store, id: string, actor: Actor, gate: bool, now: Time)
    ensures var (s', a) := Approve(s, id, actor, gate, now, Written);
      && (a.Done? <==>
            id in s.requests && (s.requests[id].status == Waiting || s.requests[id].status == Granted)
            && InTime(s.requests[id], now) && (s.requests[id].sensitivity == Destructive ==> gate))
      && (a.Done? ==>
            if s.requests[id].status == Granted then s' == s && a.request == s.requests[id]
            else Puts(s, s', s.requests[id].(status := Granted, approvedBy := actor, decidedAt := now), id))
      && (!a.Done? ==> s' == s)
  {
  }

  /** A rejection is accepted of an undecided, unexpired request and leaves it refused. */
  lemma RejectionIsExact(s: Store, id: string, actor: Actor, now: Time)
    ensures var (s', a) := Reject(s, id, actor, now, Written);
      && (a.Done? <==>
            id in s.requests && (s.requests[id].status == Waiting || s.requests[id].status == Granted)
            && InTime(s.requests[id], now))
      && (a.Done? ==> Puts(s, s', s.requests[id].(status := Refused, rejectedBy := actor, decidedAt := now), id))
      && (!a.Done? ==> s' == s)
  {
  }

  /** A begin is accepted of an approved, unexpired request, a destructive one only from the gate, by its
      requester, of its tool with its arguments and its preview. */
  lemma BeginIsExact(s: Store, id: string, tool: string, args: string, preview: string, actor: Actor, gate: bool, now: Time)
    ensures var (s', a) := Begin(s, id, tool, args, preview, actor, gate, now, Written);
      && (a.Done? <==>
            id in s.requests && s.requests[id].status == Granted && InTime(s.requests[id], now)
            && (s.requests[id].sensitivity == Destructive ==> gate) && MayRun(s.requests[id], actor)
            && tool == s.requests[id].toolName && s.requests[id].argsDigest == ArgsSum(s.requests[id].salt, args)
            && PreviewMatches(s.requests[id], preview))
      && (a.Done? ==> Puts(s, s', s.requests[id].(status := Executing, consumedAt := now), id))
      && (!a.Done? ==> s' == s)
  {
    hide PreviewDigest;
  }

  /** The requester, in the session the request came from; anybody, if none is recorded. */
  ghost predicate MayRun(r: ToolRequest, actor: Actor) {
    || r.requester.subject == ""
    || (actor.subject == r.requester.subject && (r.requester.sessionID == "" || r.requester.sessionID == actor.sessionID))
  }

  /** A completion is accepted of an executing request from whoever may run it, and records the outcome. */
  lemma CompletionIsExact(s: Store, id: string, succeeded: bool, actor: Actor, gate: bool, now: Time)
    ensures var (s', a) := Finish(s, id, succeeded, actor, gate, now, Written);
      && (a.Done? <==>
            id in s.requests && s.requests[id].status == Executing
            && (s.requests[id].sensitivity == Destructive ==> gate) && MayRun(s.requests[id], actor))
      && (a.Done? ==> Puts(s, s', s.requests[id].(status := if succeeded then Executed else Failed, decidedAt := now), id))
      && (!a.Done? ==> s' == s)
  {
  }

  // ----- creation

  lemma BlankOrNot(preview: string, salt: string)
    ensures PreviewDigest(preview, salt) == NoSum <==> AllSpace(preview)
  {
  }

  /** What creation binds: a begin that names the same requester and tool is accepted with exactly the
      arguments given at creation, and exactly the preview if one was given. */
  lemma CreationBinds(s: Store, id: string, tool: string, sensitivity: Sensitivity, args: string, salt: string,
                      preview: string, diff: string, actor: Actor, now: Time, args': string, preview': string)
    ensures var r := NewRequest(s, id, tool, sensitivity, args, salt, preview, diff, actor, now);
      && r.id == id && r.toolName == tool && r.sensitivity == sensitivity && r.requester == actor && r.diff == diff
      && r.status == Waiting && r.createdAt == now && r.expiresAt == now + s.ttl
      && (r.argsDigest == ArgsSum(r.salt, args') <==> args' == args)
      && (PreviewMatches(r, preview') <==> AllSpace(preview) || preview' == preview)
  {
    BlankOrNot(preview, salt);
    BlankOrNot(preview', salt);
    hide AllSpace;
  }

  /** Expired decisions to come go, whatever room there is; completed ones only while room is short. */
  lemma EvictionIsMinimal(m: Requests, kept: Requests, now: Time, reserve: nat, capacity: nat, id: string)
    requires MakesRoom(m, kept, now, reserve, capacity) && id in m
    ensures (m[id].status == Waiting || m[id].status == Granted) && !InTime(m[id], now) ==> id !in kept
    ensures id !in kept && (InTime(m[id], now) || (m[id].status != Waiting && m[id].status != Granted)) ==>
      Completed(m[id]) && |kept| + reserve >= capacity
  {
    hide Before;
  }

  // ----- after a crash

  /** What a new process makes of an entry of the file: interrupted work has failed, undecided or approved
      requests past their time are gone, and everything else is as it was. */
  lemma ReloadIsExact(file: Requests, now: Time, id: string)
    ensures id in Recovered(file, now) <==>
      id in file && (InTime(file[id], now) || (file[id].status != Waiting && file[id].status != Granted))
    ensures id in Recovered(file, now) ==>
      var r := Recovered(file, now)[id];
      if file[id].status == Executing then r == file[id].(status := Failed, decidedAt := now) else r == file[id]
  {
  }

  /** With a readable file that fits, a new process has what eviction kept of it, and so has the file unless
      its write was lost. */
  lemma RestartIsExact(s: Store, kept: Requests, readable: bool, now: Time, write: Write)
    ensures var s' := Restart(s, kept, readable, now, write);
      && (!s.persistent || !readable ==> s'.requests == map[] && s'.file == s.file)
      && (s.persistent && readable && |kept| <= s.capacity ==>
            s'.requests == kept && s'.file == (if write == LostBefore then s.file else kept))
      && (s.persistent && readable && |kept| > s.capacity ==> s'.requests == Recovered(s.file, now) && s'.file == s.file)
  {
    hide Recovered;
  }

  /** The call with its write faring so. */
  ghost function Faring(op: Op, write: Write): Op
    requires !op.CrashOp?
  {
    match op
    case CreateOp(r, kept, now, _) => CreateOp(r, kept, now, write)
    case ApproveOp(id, actor, gate, now, _) => ApproveOp(id, actor, gate, now, write)
    case RejectOp(id, actor, now, _) => RejectOp(id, actor, now, write)
    case BeginOp(id, tool, args, preview, actor, gate, now, _) => BeginOp(id, tool, args, preview, actor, gate, now, write)
    case FinishOp(id, succeeded, actor, gate, now, _) => FinishOp(id, succeeded, actor, gate, now, write)
  }

  ghost predicate ApprovedBefore(s: Store, op: Op) {
    op.ApproveOp? && op.id in s.requests && s.requests[op.id].status == Granted
  }

  /** A lost write leaves the memory as it was and, if lost only after the file had changed, the file of the
      write that works; every call that has something to write then says so. */
  lemma LostWriteIsExact(s: Store, op: Op, lost: Write)
    requires s.persistent && !op.CrashOp? && lost != Written
    ensures var (s1, a1) := Call(s, Faring(op, Written)); var (s2, a2) := Call(s, Faring(op, lost));
      && s2 == (if lost == LostAfter then s.(file := s1.file) else s)
      && a2 == (if a1.Done? && !ApprovedBefore(s, op) then Refusal(WriteFailed) else a1)
  {
    hide Expires, PreviewDigest, RequesterMatches;
  }

  /** What an error says of the call. */
  ghost predicate Says(e: StoreError, s: Store, op: Op)
    requires !op.CrashOp?
  {
    match e
    case CapacityExhausted => op.CreateOp? && |op.kept| >= s.capacity
    case WriteFailed => s.persistent && op.write != Written
    case _ =>
      !op.CreateOp? && if op.id in s.requests then Wrong(e, s.requests[op.id], op) else e == UnknownRequest
  }

  /** What an error says of a request the call found. */
  ghost predicate Wrong(e: StoreError, r: ToolRequest, op: Op)
    requires !op.CrashOp? && !op.CreateOp?
  {
    match e
    case RequestExpired => !op.FinishOp? && !InTime(r, op.now)
    case GateRequired => (op.ApproveOp? || op.BeginOp? || op.FinishOp?) && r.sensitivity == Destructive && !op.gate
    case AlreadyDecided => (op.ApproveOp? || op.RejectOp?) && r.status != Waiting && r.status != Granted
    case NotGranted => op.BeginOp? && r.status != Granted
    case NotExecuting => op.FinishOp? && r.status != Executing
    case WrongRequester => (op.BeginOp? || op.FinishOp?) && !MayRun(r, op.actor)
    case WrongTool => op.BeginOp? && op.tool != r.toolName
    case WrongArguments => op.BeginOp? && r.argsDigest != ArgsSum(r.salt, op.args)
    case StalePreview => op.BeginOp? && !PreviewMatches(r, op.preview)
    case _ => false
  }

  /** A refusal names something that is the matter. */
  lemma RefusalsAreTrue(s: Store, op: Op)
    requires !op.CrashOp? && Call(s, op).1.Refusal?
    ensures Says(Call(s, op).1.error, s, op)
  {
    hide PreviewDigest;
  }

  // ----- an ordinary life

  /** A request that needs no gate goes through: approved by anybody, begun by its requester with what was
      shown, and completed, while it has not expired. */
  lemma OrdinaryRequestCompletes(s: Store, id: string, approver: Actor, args: string, preview: string, t1: Time, t2: Time, t3: Time,
                                 succeeded: bool)
    requires id in s.requests && s.requests[id].status == Waiting && s.requests[id].sensitivity != Destructive
    requires var r := s.requests[id]; r.argsDigest == ArgsSum(r.salt, args) && PreviewMatches(r, preview)
    requires t1 <= t2 && InTime(s.requests[id], t2)
    ensures var r := s.requests[id];
      var (s1, a1) := Approve(s, id, approver, false, t1, Written);
      var (s2, a2) := Begin(s1, id, r.toolName, args, preview, r.requester, false, t2, Written);
      var (s3, a3) := Finish(s2, id, succeeded, r.requester, false, t3, Written);
      && a1.Done? && a2.Done? && a3.Done? && id in s3.requests
      && s3.requests[id].status == (if succeeded then Executed else Failed) && s3.requests[id].approvedBy == approver
  {
    hide Approve, Begin, Finish, PreviewDigest;
    var r := s.requests[id];
    ApprovalIsExact(s, id, approver, false, t1);
    var s1 := Approve(s, id, approver, false, t1, Written).0;
    BeginIsExact(s1, id, r.toolName, args, preview, r.requester, false, t2);
    var s2 := Begin(s1, id, r.toolName, args, preview, r.requester, false, t2, Written).0;
    CompletionIsExact(s2, id, succeeded, r.requester, false, t3);
  }

  // ----- what brought a status about

  /** The call took effect: it was answered so, or its write was lost only after the file had changed. */
  ghost predicate Effective(a: Answer, write: Write) { a.Done? || (a == Refusal(WriteFailed) && write == LostAfter) }

  ghost predicate ApprovesAt(h: History, ops: seq<Op>, i: nat, id: string, actor: Actor)
    requires i < |ops|
  {
    ops[i].ApproveOp? && ops[i].id == id && ops[i].actor == actor && Effective(AnswerAt(h, ops, i), ops[i].write)
  }

  ghost predicate RejectsAt(h: History, ops: seq<Op>, i: nat, id: string, actor: Actor)
    requires i < |ops|
  {
    ops[i].RejectOp? && ops[i].id == id && ops[i].actor == actor && Effective(AnswerAt(h, ops, i), ops[i].write)
  }

  ghost predicate BeginsAt(h: History, ops: seq<Op>, i: nat, id: string)
    requires i < |ops|
  {
    ops[i].BeginOp? && ops[i].id == id && Effective(AnswerAt(h, ops, i), ops[i].write)
  }

  /** A completion with that outcome, or, for a failure, the end of a process. */
  ghost predicate EndsAt(h: History, ops: seq<Op>, i: nat, id: string, succeeded: bool)
    requires i < |ops|
  {
    || (ops[i].FinishOp? && ops[i].id == id && ops[i].succeeded == succeeded && Effective(AnswerAt(h, ops, i), ops[i].write))
    || (ops[i].CrashOp? && !succeeded)
  }

  ghost predicate Approved(h: History, ops: seq<Op>, n: nat, r: ToolRequest)
    requires n <= |ops|
  {
    exists i: nat :: i < n && ApprovesAt(h, ops, i, r.id, r.approvedBy)
  }

  ghost predicate Rejected(h: History, ops: seq<Op>, n: nat, r: ToolRequest)
    requires n <= |ops|
  {
    exists i: nat :: i < n && RejectsAt(h, ops, i, r.id, r.rejectedBy)
  }

  ghost predicate Begun(h: History, ops: seq<Op>, n: nat, r: ToolRequest)
    requires n <= |ops|
  {
    exists i: nat :: i < n && BeginsAt(h, ops, i, r.id)
  }

  ghost predicate Ended(h: History, ops: seq<Op>, n: nat, r: ToolRequest, succeeded: bool)
    requires n <= |ops|
  {
    exists i: nat :: i < n && EndsAt(h, ops, i, r.id, succeeded)
  }

  /** The status of r after n calls has the calls behind it that it needs. */
  ghost predicate Justified(h: History, ops: seq<Op>, n: nat, r: ToolRequest)
    requires n <= |ops|
  {
    && (r.status == Granted || r.status == Executing || r.status == Executed || r.status == Failed ==> Approved(h, ops, n, r))
    && (r.status == Refused ==> Rejected(h, ops, n, r))
    && (r.status == Executing || r.status == Executed || r.status == Failed ==> Begun(h, ops, n, r))
    && (r.status == Executed ==> Ended(h, ops, n, r, true))
    && (r.status == Failed ==> Ended(h, ops, n, r, false))
  }

  ghost predicate AllJustified(h: History, ops: seq<Op>, n: nat, m: Requests)
    requires n <= |ops|
  {
    forall id | id in m :: m[id].id == id && Justified(h, ops, n, m[id])
  }

  lemma JustifiedLater(h: History, ops: seq<Op>, n: nat, r: ToolRequest)
    requires n < |ops| && Justified(h, ops, n, r)
    ensures Justified(h, ops, n + 1, r)
  {
    hide ApprovesAt, RejectsAt, BeginsAt, EndsAt;
  }

  /** What a decision makes of a request. */
  ghost predicate Moved(op: Op, r: ToolRequest, r': ToolRequest) {
    match op
    case ApproveOp(_, actor, _, now, _) => r.status == Waiting && r' == r.(status := Granted, approvedBy := actor, decidedAt := now)
    case RejectOp(_, actor, now, _) => Actionable(r) && r' == r.(status := Refused, rejectedBy := actor, decidedAt := now)
    case BeginOp(_, _, _, _, _, _, now, _) => r.status == Granted && r' == r.(status := Executing, consumedAt := now)
    case FinishOp(_, succeeded, _, _, now, _) =>
      r.status == Executing && r' == r.(status := if succeeded then Executed else Failed, decidedAt := now)
    case _ => false
  }

  ghost predicate InStore(s: Store, id: string, r: ToolRequest) {
    (id in s.requests && s.requests[id] == r) || (id in s.file && s.file[id] == r)
  }

  /** Where an entry of memory or file comes from. */
  ghost predicate Origin(h: History, op: Op, id: string, r: ToolRequest) {
    || InStore(h.store, id, r)
    || (op.CreateOp? && op.request == r && r.id == id)
    || (op.CrashOp? && id in h.store.file && h.store.file[id].status == Executing
        && r == h.store.file[id].(status := Failed, decidedAt := op.now))
    || (!op.CreateOp? && !op.CrashOp? && op.id == id && id in h.store.requests && Moved(op, h.store.requests[id], r)
        && Effective(Call(h.store, op).1, op.write))
  }

  lemma UpdateOrigin(s: Store, id: string, r: ToolRequest, write: Write, x: string, q: ToolRequest)
    requires InStore(Update(s, id, r, write).0, x, q)
    ensures InStore(s, x, q) || (x == id && q == r && Effective(Update(s, id, r, write).1, write))
  {
  }

  lemma DecisionOrigin(h: History, op: Op, id: string, r: ToolRequest)
    requires !op.CreateOp? && !op.CrashOp? && InStore(Call(h.store, op).0, id, r)
    ensures Origin(h, op, id, r)
  {
    hide Expires, PreviewDigest, RequesterMatches, Update, InStore, Effective, Actionable;
    if op.id in h.store.requests {
      var q := h.store.requests[op.id];
      match op
      case ApproveOp(x, actor, gate, now, write) =>
        if Call(h.store, op) == Update(h.store, x, q.(status := Granted, decidedAt := now, approvedBy := actor), write) {
          UpdateOrigin(h.store, x, q.(status := Granted, decidedAt := now, approvedBy := actor), write, id, r);
        }
      case RejectOp(x, actor, now, write) =>
        if Call(h.store, op) == Update(h.store, x, q.(status := Refused, decidedAt := now, rejectedBy := actor), write) {
          UpdateOrigin(h.store, x, q.(status := Refused, decidedAt := now, rejectedBy := actor), write, id, r);
        }
      case BeginOp(x, tool, args, preview, actor, gate, now, write) =>
        if Call(h.store, op) == Update(h.store, x, q.(status := Executing, consumedAt := now), write) {
          UpdateOrigin(h.store, x, q.(status := Executing, consumedAt := now), write, id, r);
        }
      case FinishOp(x, succeeded, actor, gate, now, write) =>
        var q' := q.(status := if succeeded then Executed else Failed, decidedAt := now);
        if Call(h.store, op) == Update(h.store, x, q', write) { UpdateOrigin(h.store, x, q', write, id, r); }
    }
  }

  lemma CreateOrigin(h: History, op: Op, id: string, r: ToolRequest)
    requires op.CreateOp? && Possible(h, op) && InStore(Call(h.store, op).0, id, r)
    ensures Origin(h, op, id, r)
  {
    KeptIsPart(h.store.requests, op.kept, op.now, 1, h.store.capacity);
    hide MakesRoom;
  }

  lemma CrashOrigin(h: History, op: Op, id: string, r: ToolRequest)
    requires op.CrashOp? && Possible(h, op) && InStore(Call(h.store, op).0, id, r)
    ensures Origin(h, op, id, r)
  {
    RestartIsExact(h.store, op.kept, op.readable, op.now, op.write);
    ReloadIsExact(h.store.file, op.now, id);
    hide Restart, Recovered, Expires, Actionable;
    if h.store.persistent && op.readable {
      KeptIsPart(Recovered(h.store.file, op.now), op.kept, op.now, 0, h.store.capacity);
    }
    hide MakesRoom;
  }

  lemma EntryOrigin(h: History, op: Op, id: string, r: ToolRequest)
    requires Possible(h, op) && InStore(Call(h.store, op).0, id, r)
    ensures Origin(h, op, id, r)
  {
    hide Call, Possible, InStore, Origin;
    if op.CreateOp? {
      CreateOrigin(h, op, id, r);
    } else if op.CrashOp? {
      CrashOrigin(h, op, id, r);
    } else {
      DecisionOrigin(h, op, id, r);
    }
  }

  // ----- over a run

  ghost predicate StoreJustified(h: History, ops: seq<Op>, n: nat)
    requires n <= |ops|
  {
    var s := After(h, ops[..n]).store;
    AllJustified(h, ops, n, s.requests) && AllJustified(h, ops, n, s.file)
  }

  /** A version that a call has just made is justified by that call and what the old one had behind it. */
  lemma MovedIsJustified(h: History, ops: seq<Op>, n: nat, r: ToolRequest, r': ToolRequest)
    requires n < |ops| && Justified(h, ops, n, r) && Moved(ops[n], r, r') && ops[n].id == r.id
    requires Effective(AnswerAt(h, ops, n), ops[n].write)
    ensures Justified(h, ops, n + 1, r') && r'.id == r.id
  {
    JustifiedLater(h, ops, n, r);
    assert ops[n].ApproveOp? ==> ApprovesAt(h, ops, n, r'.id, r'.approvedBy);
    assert ops[n].RejectOp? ==> RejectsAt(h, ops, n, r'.id, r'.rejectedBy);
    assert ops[n].BeginOp? ==> BeginsAt(h, ops, n, r'.id);
    assert ops[n].FinishOp? ==> EndsAt(h, ops, n, r'.id, ops[n].succeeded);
    hide ApprovesAt, RejectsAt, BeginsAt, EndsAt;
  }

  lemma InterruptedIsJustified(h: History, ops: seq<Op>, n: nat, r: ToolRequest, now: Time)
    requires n < |ops| && Justified(h, ops, n, r) && r.status == Executing && ops[n].CrashOp?
    ensures Justified(h, ops, n + 1, r.(status := Failed, decidedAt := now))
  {
    JustifiedLater(h, ops, n, r);
    assert EndsAt(h, ops, n, r.id, false);
    hide ApprovesAt, RejectsAt, BeginsAt, EndsAt;
  }

  lemma EntryJustified(h: History, ops: seq<Op>, n: nat, id: string, r: ToolRequest)
    requires n < |ops| && StoreJustified(h, ops, n) && Origin(After(h, ops[..n]), ops[n], id, r)
    requires ops[n].CreateOp? ==> ops[n].request.status == Waiting
    ensures r.id == id && Justified(h, ops, n + 1, r)
  {
    hide Justified, After, Moved, Call, Effective;
    var g := After(h, ops[..n]);
    if InStore(g.store, id, r) {
      JustifiedLater(h, ops, n, r);
    } else if ops[n].CreateOp? {
      WaitingIsJustified(h, ops, n + 1, r);
    } else if ops[n].CrashOp? {
      InterruptedIsJustified(h, ops, n, g.store.file[id], ops[n].now);
    } else {
      MovedIsJustified(h, ops, n, g.store.requests[id], r);
    }
  }

  lemma WaitingIsJustified(h: History, ops: seq<Op>, n: nat, r: ToolRequest)
    requires n <= |ops| && r.status == Waiting
    ensures Justified(h, ops, n, r)
  {
  }

  lemma AfterNext(h: History, ops: seq<Op>, n: nat)
    requires n < |ops|
    ensures After(h, ops[..n + 1]) == Next(After(h, ops[..n]), ops[n])
    ensures After(h, ops[..n + 1]).store == Call(After(h, ops[..n]).store, ops[n]).0
  {
    hide Call;
    assert ops[..n + 1][..n] == ops[..n];
  }

  lemma StepJustified(h: History, ops: seq<Op>, n: nat)
    requires n < |ops| && StoreJustified(h, ops, n) && Possible(After(h, ops[..n]), ops[n])
    ensures StoreJustified(h, ops, n + 1)
  {
    hide Justified, After, Call, Origin, StoreJustified, Next;
    AfterNext(h, ops, n);
    assert ops[n].CreateOp? ==> ops[n].request.status == Waiting;
    hide Possible;
    var s := After(h, ops[..n + 1]).store;
    forall id, r | InStore(s, id, r)
      ensures r.id == id && Justified(h, ops, n + 1, r)
    {
      EntryOrigin(After(h, ops[..n]), ops[n], id, r);
      EntryJustified(h, ops, n, id, r);
    }
    assert AllJustified(h, ops, n + 1, s.requests) by {
      forall id | id in s.requests
        ensures s.requests[id].id == id && Justified(h, ops, n + 1, s.requests[id])
      {
        assert InStore(s, id, s.requests[id]);
      }
    }
    assert AllJustified(h, ops, n + 1, s.file) by {
      forall id | id in s.file
        ensures s.file[id].id == id && Justified(h, ops, n + 1, s.file[id])
      {
        assert InStore(s, id, s.file[id]);
      }
    }
    StoreJustifiedIs(h, ops, n + 1);
  }

  lemma StoreJustifiedIs(h: History, ops: seq<Op>, n: nat)
    requires n <= |ops|
    requires var s := After(h, ops[..n]).store; AllJustified(h, ops, n, s.requests) && AllJustified(h, ops, n, s.file)
    ensures StoreJustified(h, ops, n)
  {
  }

  /** In every run from an empty store, every request in memory or in the file has behind it the calls its
      status needs: an approval by the approver it names, a rejection by the one it names, a begin, an end. */
  lemma {:induction false} EveryStatusIsJustified(persistent: bool, capacity: nat, ttl: nat, ops: seq<Op>, n: nat)
    requires Feasible(Start(persistent, capacity, ttl), ops) && n <= |ops|
    ensures StoreJustified(Start(persistent, capacity, ttl), ops, n)
  {
    hide StoreJustified, Possible;
    if n == 0 {
      NothingToJustify(persistent, capacity, ttl, ops);
    } else {
      EveryStatusIsJustified(persistent, capacity, ttl, ops, n - 1);
      StepJustified(Start(persistent, capacity, ttl), ops, n - 1);
    }
  }

  lemma NothingToJustify(persistent: bool, capacity: nat, ttl: nat, ops: seq<Op>)
    ensures StoreJustified(Start(persistent, capacity, ttl), ops, 0)
  {
    assert ops[..0] == [];
  }

  /** A begin that succeeds comes after an approval of the same request that took effect, by the approver the
      request names. */
  lemma BeginWasApproved(persistent: bool, capacity: nat, ttl: nat, ops: seq<Op>, j: nat) returns (i: nat)
    requires var h := Start(persistent, capacity, ttl);
      Feasible(h, ops) && j < |ops| && ops[j].BeginOp? && AnswerAt(h, ops, j).Done?
    ensures i < j && ops[i].ApproveOp? && ops[i].id == ops[j].id
    ensures var h := Start(persistent, capacity, ttl);
      Effective(AnswerAt(h, ops, i), ops[i].write) && ops[i].actor == AnswerAt(h, ops, j).request.approvedBy
  {
    var h := Start(persistent, capacity, ttl);
    EveryStatusIsJustified(persistent, capacity, ttl, ops, j);
    var s := After(h, ops[..j]).store;
    hide Start, Feasible, After;
    BegunWasGranted(s, ops[j]);
    var r := s.requests[ops[j].id];
    assert Approved(h, ops, j, r);
    hide Justified, Call;
    i :| i < j && ApprovesAt(h, ops, i, r.id, r.approvedBy);
  }

  lemma BegunWasGranted(s: Store, op: Op)
    requires op.BeginOp? && Call(s, op).1.Done?
    ensures op.id in s.requests && s.requests[op.id].status == Granted
    ensures Call(s, op).1.request.approvedBy == s.requests[op.id].approvedBy
  {
    hide PreviewDigest, Expires, RequesterMatches;
  }

  // ----- what is final

  /** The call has settled the request for good, and how. */
  ghost predicate Settles(op: Op, a: Answer, status: ToolStatus) {
    && a.Done?
    && ((op.RejectOp? && status == Refused) || (op.FinishOp? && status == if op.succeeded then Executed else Failed))
  }

  ghost predicate SettledAs(s: Store, id: string, status: ToolStatus) {
    forall r | InStore(s, id, r) :: r.status == status
  }

  lemma SettlingSettles(s: Store, op: Op, status: ToolStatus)
    requires Settles(op, Call(s, op).1, status) && (!s.persistent ==> s.file == map[])
    ensures SettledAs(Call(s, op).0, op.id, status)
  {
    hide Expires, RequesterMatches, Actionable;
  }

  lemma SettledStays(h: History, op: Op, id: string, status: ToolStatus)
    requires Possible(h, op) && id in h.created && SettledAs(h.store, id, status)
    requires status == Refused || status == Executed || status == Failed
    ensures SettledAs(Call(h.store, op).0, id, status)
  {
    var s := Call(h.store, op).0;
    forall r | InStore(s, id, r)
      ensures r.status == status
    {
      EntryOrigin(h, op, id, r);
      OriginSettled(h, op, id, r, status);
    }
  }

  lemma OriginSettled(h: History, op: Op, id: string, r: ToolRequest, status: ToolStatus)
    requires Origin(h, op, id, r) && SettledAs(h.store, id, status) && id in h.created && Possible(h, op)
    requires status == Refused || status == Executed || status == Failed
    ensures r.status == status
  {
    hide MakesRoom, Call, Effective;
    if id in h.store.requests { assert InStore(h.store, id, h.store.requests[id]); }
    if id in h.store.file { assert InStore(h.store, id, h.store.file[id]); }
  }

  /** A rejection or completion that was answered is final: whatever happens later, memory and file have the
      request in that status or, once evicted, not at all. */
  lemma {:induction false} SettledForGood(persistent: bool, capacity: nat, ttl: nat, ops: seq<Op>, i: nat, n: nat, status: ToolStatus)
    requires var h := Start(persistent, capacity, ttl);
      Feasible(h, ops) && i < n <= |ops| && Settles(ops[i], AnswerAt(h, ops, i), status)
    ensures SettledAs(After(Start(persistent, capacity, ttl), ops[..n]).store, ops[i].id, status)
    ensures ops[i].id in After(Start(persistent, capacity, ttl), ops[..n]).created
    decreases n
  {
    hide Possible, SettledAs, Call, InStore;
    var h := Start(persistent, capacity, ttl);
    AfterNext(h, ops, n - 1);
    FeasiblePrefix(h, ops, n - 1);
    RunKeepsInv(h, ops[..n - 1]);
    if n == i + 1 {
      SettledWasCreated(After(h, ops[..i]), ops[i], status);
      SettlingSettles(After(h, ops[..i]).store, ops[i], status);
    } else {
      SettledForGood(persistent, capacity, ttl, ops, i, n - 1, status);
      SettledStays(After(h, ops[..n - 1]), ops[n - 1], ops[i].id, status);
    }
  }

  lemma SettledWasCreated(h: History, op: Op, status: ToolStatus)
    requires Inv(h) && Settles(op, Call(h.store, op).1, status)
    ensures op.id in h.created && (!h.store.persistent ==> h.store.file == map[])
  {
    hide SameIntent, Spent, Expires, RequesterMatches;
  }

  /** No begin succeeds after a rejection that was answered. */
  lemma RejectedNeverBegins(persistent: bool, capacity: nat, ttl: nat, ops: seq<Op>, i: nat, j: nat)
    requires var h := Start(persistent, capacity, ttl);
      && Feasible(h, ops) && i < j < |ops| && ops[i].RejectOp? && AnswerAt(h, ops, i).Done?
      && ops[j].BeginOp? && AnswerAt(h, ops, j).Done?
    ensures ops[i].id != ops[j].id
  {
    hide Feasible, Call, After;
    SettledForGood(persistent, capacity, ttl, ops, i, j, Refused);
    var s := After(Start(persistent, capacity, ttl), ops[..j]).store;
    BegunWasGranted(s, ops[j]);
    assert InStore(s, ops[j].id, s.requests[ops[j].id]);
  }
}
