/** Over any run of calls, lost writes, crashes and reloads, a tool request begins
    execution at most once and only as it was created; and what eviction may do. */
module ToolStoreSafety {
  import opened ApprovalTypes
  import opened ToolStore

  // ----- eviction

  /** Running work and unexpired decisions to come are never evicted, whatever the pressure. */
  lemma ActiveWorkSurvives(m: Requests, kept: Requests, now: Time, reserve: nat, capacity: nat, id: string)
    requires MakesRoom(m, kept, now, reserve, capacity) && id in m
    requires m[id].status == Executing || (Actionable(m[id]) && !Expires(m[id], now))
    ensures id in kept && kept[id] == m[id]
  {
  }

  /** Completed requests go oldest first. */
  lemma OldestGoFirst(m: Requests, kept: Requests, now: Time, reserve: nat, capacity: nat, a: string, b: string)
    requires MakesRoom(m, kept, now, reserve, capacity)
    requires a in m && Completed(m[a]) && a !in kept && b in kept && Completed(kept[b])
    ensures Before(m[a], kept[b])
  {
  }

  /** A successful create stays within capacity; one that fails, for capacity or for a lost
      write, leaves the map in memory exactly as it was. */
  lemma CreateIsAtomic(s: Store, r: ToolRequest, kept: Requests, now: Time, write: Write)
    requires MakesRoom(s.requests, kept, now, 1, s.capacity) && r.id !in s.requests
    ensures var (s', a) := Create(s, r, kept, write);
      && (a.Refusal? ==> s'.requests == s.requests)
      && (a.Done? ==> |s'.requests| <= s.capacity && s'.requests == kept[r.id := r]
                      && (s.persistent ==> s'.file == s'.requests))
  {
    assert r.id !in kept;
  }

  // ----- what never changes about a request

  /** A preview recorded at creation, if any, is the one shown. */
  ghost predicate PreviewMatches(r: ToolRequest, preview: string) {
    r.previewDigest != NoSum ==> r.previewDigest == PreviewDigest(preview, r.salt)
  }

  /** The tool, the digests and the requester a request was created with. */
  ghost predicate SameIntent(r: ToolRequest, created: ToolRequest) {
    && r.id == created.id && r.toolName == created.toolName && r.salt == created.salt && r.argsDigest == created.argsDigest
    && r.previewDigest == created.previewDigest && r.sensitivity == created.sensitivity && r.diff == created.diff
    && r.requester == created.requester && r.createdAt == created.createdAt && r.expiresAt == created.expiresAt
  }

  ghost predicate AsCreated(m: Requests, created: Requests) {
    forall id | id in m :: id in created && SameIntent(m[id], created[id])
  }

  /** A begun request is never actionable again. */
  ghost predicate Spent(m: Requests, begun: set<string>) {
    forall id | id in begun && id in m :: !Actionable(m[id])
  }

  datatype History = History(store: Store, created: Requests, begun: set<string>)

  ghost predicate Inv(h: History) {
    && AsCreated(h.store.requests, h.created) && AsCreated(h.store.file, h.created)
    && Spent(h.store.requests, h.begun) && Spent(h.store.file, h.begun)
    && h.begun <= h.created.Keys && (!h.store.persistent ==> h.store.file == map[])
  }

  // ----- runs

  datatype Op =
    | CreateOp(request: ToolRequest, kept: Requests, now: Time, write: Write)
    | ApproveOp(id: string, actor: Actor, gate: bool, now: Time, write: Write)
    | RejectOp(id: string, actor: Actor, now: Time, write: Write)
    | BeginOp(id: string, tool: string, args: string, preview: string, actor: Actor, gate: bool, now: Time, write: Write)
    | FinishOp(id: string, succeeded: bool, actor: Actor, gate: bool, now: Time, write: Write)
    | CrashOp(kept: Requests, readable: bool, now: Time, write: Write)

  /** What the environment guarantees: new IDs are new, a created request waits, and kept is
      what makeRoomLocked computes. */
  ghost predicate Possible(h: History, op: Op) {
    match op
    case CreateOp(r, kept, now, write) =>
      r.id !in h.created && r.status == Waiting && MakesRoom(h.store.requests, kept, now, 1, h.store.capacity)
    case CrashOp(kept, readable, now, write) =>
      h.store.persistent && readable ==> MakesRoom(Recovered(h.store.file, now), kept, now, 0, h.store.capacity)
    case _ => true
  }

  function Call(s: Store, op: Op): (Store, Answer) {
    match op
    case CreateOp(r, kept, now, write) => Create(s, r, kept, write)
    case ApproveOp(id, actor, gate, now, write) => Approve(s, id, actor, gate, now, write)
    case RejectOp(id, actor, now, write) => Reject(s, id, actor, now, write)
    case BeginOp(id, tool, args, preview, actor, gate, now, write) =>
      Begin(s, id, tool, args, preview, actor, gate, now, write)
    case FinishOp(id, succeeded, actor, gate, now, write) => Finish(s, id, succeeded, actor, gate, now, write)
    case CrashOp(kept, readable, now, write) =>
      (Restart(s, kept, readable, now, write), Refusal(UnknownRequest))
  }

  function Next(h: History, op: Op): History {
    var (s, a) := Call(h.store, op);
    History(s,
            if op.CreateOp? then h.created[op.request.id := op.request] else h.created,
            if op.BeginOp? && a.Done? then h.begun + {op.id} else h.begun)
  }

  ghost function After(h: History, ops: seq<Op>): History {
    if ops == [] then h else Next(After(h, ops[..|ops| - 1]), ops[|ops| - 1])
  }

  ghost predicate Feasible(h: History, ops: seq<Op>) {
    forall i | 0 <= i < |ops| :: Possible(After(h, ops[..i]), ops[i])
  }

  function Fresh(persistent: bool, capacity: nat, ttl: nat): Store {
    Store(map[], map[], persistent, capacity, ttl)
  }

  function Start(persistent: bool, capacity: nat, ttl: nat): History {
    History(Fresh(persistent, capacity, ttl), map[], {})
  }

  /** Replacing one request by a version of itself that is not made actionable again. */
  lemma UpdateKeepsInv(h: History, id: string, r: ToolRequest, write: Write)
    requires Inv(h) && id in h.store.requests && SameIntent(r, h.store.requests[id])
    requires id in h.begun ==> !Actionable(r)
    ensures Inv(h.(store := Update(h.store, id, r, write).0))
  {
    hide Actionable;
  }

  /** What a begin that succeeds was given, in terms of the creation. */
  ghost predicate BeginsAsCreated(h: History, op: Op)
    requires op.BeginOp?
  {
    op.id in h.created &&
    var r := h.created[op.id];
    && op.tool == r.toolName && r.argsDigest == ArgsSum(r.salt, op.args)
    && RequesterMatches(r, op.actor) && PreviewMatches(r, op.preview)
  }

  ghost predicate NowhereActionable(s: Store, id: string) {
    (id in s.requests ==> !Actionable(s.requests[id])) && (id in s.file ==> !Actionable(s.file[id]))
  }

  lemma CallKeepsInv(h: History, op: Op)
    requires Inv(h) && (op.ApproveOp? || op.RejectOp? || op.BeginOp? || op.FinishOp?)
    ensures Inv(h.(store := Call(h.store, op).0))
    ensures op.BeginOp? && Call(h.store, op).1.Done? ==>
      op.id !in h.begun && BeginsAsCreated(h, op) && NowhereActionable(Call(h.store, op).0, op.id)
  {
    if op.BeginOp? { BeginKeepsInv(h, op); } else { DecisionKeepsInv(h, op); }
    hide Inv, Approve, Reject, Begin, Finish;
  }

  lemma DecisionKeepsInv(h: History, op: Op)
    requires Inv(h) && (op.ApproveOp? || op.RejectOp? || op.FinishOp?)
    ensures Inv(h.(store := Call(h.store, op).0))
  {
    hide Expires, Update, AsCreated;
    if op.id in h.store.requests {
      var r := h.store.requests[op.id];
      match op
      case ApproveOp(id, actor, gate, now, write) =>
        if r.status == Waiting { UpdateKeepsInv(h, id, r.(status := Granted, decidedAt := now, approvedBy := actor), write); }
      case RejectOp(id, actor, now, write) =>
        UpdateKeepsInv(h, id, r.(status := Refused, decidedAt := now, rejectedBy := actor), write);
      case FinishOp(id, succeeded, actor, gate, now, write) =>
        UpdateKeepsInv(h, id, r.(status := if succeeded then Executed else Failed, decidedAt := now), write);
    }
  }

  lemma BeginKeepsInv(h: History, op: Op)
    requires Inv(h) && op.BeginOp?
    ensures Inv(h.(store := Call(h.store, op).0))
    ensures Call(h.store, op).1.Done? ==>
      op.id !in h.begun && BeginsAsCreated(h, op) && NowhereActionable(Call(h.store, op).0, op.id)
  {
    hide Expires, PreviewDigest, Update, RequesterMatches;
    if op.id in h.store.requests {
      var r := h.store.requests[op.id];
      var r' := r.(status := Executing, consumedAt := op.now);
      UpdateKeepsInv(h, op.id, r', op.write);
      if Call(h.store, op).1.Done? {
        UpdatedEverywhere(h, op.id, r', op.write);
        SameRequester(r, h.created[op.id], op.actor);
      }
    }
  }

  lemma SameRequester(r: ToolRequest, created: ToolRequest, actor: Actor)
    requires r.requester == created.requester
    ensures RequesterMatches(r, actor) <==> RequesterMatches(created, actor)
  {
  }

  lemma UpdatedEverywhere(h: History, id: string, r: ToolRequest, write: Write)
    requires Inv(h) && Update(h.store, id, r, write).1.Done?
    ensures var s := Update(h.store, id, r, write).0;
      s.requests == h.store.requests[id := r] && (id in s.file ==> s.file[id] == r)
  {
  }

  /** A part of a good map is good, also once a new waiting request is added. */
  lemma PartIsGood(m: Requests, kept: Requests, created: Requests, begun: set<string>)
    requires AsCreated(m, created) && Spent(m, begun)
    requires forall id | id in kept :: id in m && kept[id] == m[id]
    ensures AsCreated(kept, created) && Spent(kept, begun)
  {
    hide SameIntent, Actionable;
  }

  lemma AddedIsGood(kept: Requests, created: Requests, begun: set<string>, r: ToolRequest)
    requires AsCreated(kept, created) && Spent(kept, begun) && r.id !in created && begun <= created.Keys
    ensures AsCreated(kept[r.id := r], created[r.id := r]) && Spent(kept[r.id := r], begun)
    ensures AsCreated(kept, created[r.id := r])
  {
    hide Actionable;
  }

  lemma CreateKeepsInv(h: History, op: Op)
    requires Inv(h) && op.CreateOp? && Possible(h, op)
    ensures Inv(Next(h, op))
  {
    var r, kept := op.request, op.kept;
    KeptIsPart(h.store.requests, kept, op.now, 1, h.store.capacity);
    hide MakesRoom;
    PartIsGood(h.store.requests, kept, h.created, h.begun);
    AddedIsGood(kept, h.created, h.begun, r);
    AddedIsGood(h.store.requests, h.created, h.begun, r);
    AddedIsGood(h.store.file, h.created, h.begun, r);
    hide AsCreated, Spent;
  }

  lemma KeptIsPart(m: Requests, kept: Requests, now: Time, reserve: nat, capacity: nat)
    requires MakesRoom(m, kept, now, reserve, capacity)
    ensures forall id | id in kept :: id in m && kept[id] == m[id]
  {
    hide Before, Completed;
  }

  lemma RecoveredIsGood(file: Requests, created: Requests, begun: set<string>, now: Time)
    requires AsCreated(file, created) && Spent(file, begun)
    ensures AsCreated(Recovered(file, now), created) && Spent(Recovered(file, now), begun)
  {
    hide Expires;
  }

  lemma CrashKeepsInv(h: History, op: Op)
    requires Inv(h) && op.CrashOp? && Possible(h, op)
    ensures Inv(Next(h, op))
  {
    hide AsCreated, Spent, MakesRoom, Recovered;
    EmptyIsGood(h.created, h.begun);
    RecoveredIsGood(h.store.file, h.created, h.begun, op.now);
    if h.store.persistent && op.readable {
      KeptIsPart(Recovered(h.store.file, op.now), op.kept, op.now, 0, h.store.capacity);
      PartIsGood(Recovered(h.store.file, op.now), op.kept, h.created, h.begun);
    }
  }

  lemma EmptyIsGood(created: Requests, begun: set<string>)
    ensures AsCreated(map[], created) && Spent(map[], begun)
  {
  }

  lemma NextKeepsInv(h: History, op: Op)
    requires Inv(h) && Possible(h, op)
    ensures Inv(Next(h, op))
  {
    hide MakesRoom, Create, Approve, Reject, Begin, Finish, Restart, SameIntent;
    if op.CreateOp? { CreateKeepsInv(h, op); }
    else if op.CrashOp? { CrashKeepsInv(h, op); }
    else { CallKeepsInv(h, op); }
  }

  lemma {:induction false} RunKeepsInv(h: History, ops: seq<Op>)
    requires Inv(h) && Feasible(h, ops)
    ensures Inv(After(h, ops))
  {
    hide Inv, Next, Possible;
    if ops != [] {
      var n := |ops| - 1;
      forall i | 0 <= i < n
        ensures Possible(After(h, ops[..n][..i]), ops[..n][i])
      {
        assert ops[..n][..i] == ops[..i];
      }
      RunKeepsInv(h, ops[..n]);
      NextKeepsInv(After(h, ops[..n]), ops[n]);
    }
  }

  /** The answer to call number i of a run. */
  ghost function AnswerAt(h: History, ops: seq<Op>, i: nat): Answer
    requires i < |ops|
  {
    Call(After(h, ops[..i]).store, ops[i]).1
  }

  lemma {:induction false} BegunStays(h: History, ops: seq<Op>, i: nat, j: nat)
    requires i <= j <= |ops|
    ensures After(h, ops[..i]).begun <= After(h, ops[..j]).begun
    decreases j - i
  {
    hide Call;
    if i < j {
      BegunStays(h, ops, i, j - 1);
      assert ops[..j][..j - 1] == ops[..j - 1];
    }
  }

  lemma FeasiblePrefix(h: History, ops: seq<Op>, n: nat)
    requires Feasible(h, ops) && n <= |ops|
    ensures Feasible(h, ops[..n])
  {
    hide Possible, After;
    forall i | 0 <= i < n
      ensures Possible(After(h, ops[..n][..i]), ops[..n][i])
    {
      assert ops[..n][..i] == ops[..i];
    }
  }

  /** From an empty store, over any run of calls, lost writes, crashes and reloads: a begin that
      succeeds names the tool, the arguments and the requester the request was created with,
      and no other begin of that request, before or after, succeeds. */
  lemma ExecutionBeginsOnce(persistent: bool, capacity: nat, ttl: nat, ops: seq<Op>, i: nat, j: nat)
    requires var h := Start(persistent, capacity, ttl);
      && Feasible(h, ops) && i < j < |ops| && ops[i].BeginOp? && ops[j].BeginOp?
      && AnswerAt(h, ops, i).Done? && AnswerAt(h, ops, j).Done?
    ensures ops[i].id != ops[j].id
  {
    hide Call, Feasible, Possible;
    var h := Start(persistent, capacity, ttl);
    FeasiblePrefix(h, ops, i);
    FeasiblePrefix(h, ops, j);
    RunKeepsInv(h, ops[..i]);
    RunKeepsInv(h, ops[..j]);
    CallKeepsInv(After(h, ops[..j]), ops[j]);
    assert ops[..i + 1][..i] == ops[..i];
    assert ops[i].id in After(h, ops[..i + 1]).begun;
    BegunStays(h, ops, i + 1, j);
  }

  lemma ExecutionIsAsCreated(persistent: bool, capacity: nat, ttl: nat, ops: seq<Op>, i: nat)
    requires var h := Start(persistent, capacity, ttl);
      Feasible(h, ops) && i < |ops| && ops[i].BeginOp? && AnswerAt(h, ops, i).Done?
    ensures BeginsAsCreated(After(Start(persistent, capacity, ttl), ops[..i]), ops[i])
  {
    hide Call, Feasible, Possible;
    var h := Start(persistent, capacity, ttl);
    FeasiblePrefix(h, ops, i);
    RunKeepsInv(h, ops[..i]);
    CallKeepsInv(After(h, ops[..i]), ops[i]);
  }
}
