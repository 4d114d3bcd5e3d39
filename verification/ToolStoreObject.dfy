/** The AI approval store as an object: the map in memory is changed in place, evicted from,
    and put back when the file cannot be written. Each method does what ToolStore says. */
module ToolStoreObject {
  import opened ApprovalTypes
  import opened ToolStore

  // ----- the age order

  /** Age then ID: of two requests with different IDs one comes first. */
  lemma {:induction false} LexTotal(s: string, t: string)
    requires s != t
    ensures LexLess(s, t) || LexLess(t, s)
  {
    if s != "" && t != "" && s[0] == t[0] {
      assert s == [s[0]] + s[1..] && t == [t[0]] + t[1..];
      LexTotal(s[1..], t[1..]);
    }
  }

  lemma {:induction false} LexTransitive(s: string, t: string, u: string)
    requires LexLess(s, t) && LexLess(t, u)
    ensures LexLess(s, u)
  {
    if s != "" && s[0] == t[0] && t[0] == u[0] { LexTransitive(s[1..], t[1..], u[1..]); }
  }

  lemma AgeTransitive(a: ToolRequest, b: ToolRequest, c: ToolRequest)
    requires Before(a, b) && Before(b, c)
    ensures Before(a, c)
  {
    if a.createdAt == c.createdAt { LexTransitive(a.id, b.id, c.id); }
  }

  ghost predicate ByAge(s: seq<ToolRequest>) { forall i, j | 0 <= i < j < |s| :: Before(s[i], s[j]) }

  ghost predicate DistinctIDs(s: seq<ToolRequest>) { forall i, j | 0 <= i < j < |s| :: s[i].id != s[j].id }

  /** Puts r into its place. */
  function Insert(r: ToolRequest, s: seq<ToolRequest>): (t: seq<ToolRequest>)
    requires ByAge(s) && forall x | x in s :: x.id != r.id
    ensures ByAge(t) && |t| == |s| + 1 && forall x :: x in t <==> x == r || x in s
  {
    if s == [] then [r]
    else if Before(r, s[0]) then
      InsertFront(r, s);
      [r] + s
    else
      InsertBack(r, s, Insert(r, s[1..]));
      [s[0]] + Insert(r, s[1..])
  }

  lemma InsertFront(r: ToolRequest, s: seq<ToolRequest>)
    requires s != [] && ByAge(s) && Before(r, s[0])
    ensures ByAge([r] + s)
  {
    hide Before;
    forall j | 0 < j < |s| + 1
      ensures Before(r, ([r] + s)[j])
    {
      if j > 1 { AgeTransitive(r, s[0], s[j - 1]); }
    }
  }

  lemma InsertBack(r: ToolRequest, s: seq<ToolRequest>, t: seq<ToolRequest>)
    requires s != [] && ByAge(s) && !Before(r, s[0]) && s[0].id != r.id
    requires ByAge(t) && forall x :: x in t <==> x == r || x in s[1..]
    ensures ByAge([s[0]] + t) && forall x :: x in [s[0]] + t <==> x == r || x in s
  {
    LexTotal(r.id, s[0].id);
    assert Before(s[0], r);
    hide Before;
    forall j | 0 < j < |t| + 1
      ensures Before(s[0], ([s[0]] + t)[j])
    {
      var x := t[j - 1];
      assert x in t;
      if x != r {
        var k :| 0 <= k < |s[1..]| && s[1..][k] == x;
        assert s[k + 1] == x;
      }
    }
    assert s == [s[0]] + s[1..];
  }

  /** slices.SortFunc by age then ID. */
  function SortByAge(s: seq<ToolRequest>): (t: seq<ToolRequest>)
    requires DistinctIDs(s)
    ensures ByAge(t) && |t| == |s| && forall x :: x in t <==> x in s
  {
    if s == [] then []
    else
      assert s == s[..|s| - 1] + [s[|s| - 1]];
      Insert(s[|s| - 1], SortByAge(s[..|s| - 1]))
  }

  // ----- small facts about maps

  lemma RemoveOne(m: Requests, id: string)
    requires id in m
    ensures |m - {id}| == |m| - 1
  {
    assert (m - {id}).Keys == m.Keys - {id};
  }

  ghost predicate Keyed(m: Requests) { forall id | id in m :: m[id].id == id }

  /** kept and removed are disjoint and make up m, so putting removed back restores m. */
  ghost predicate Parts(m: Requests, kept: Requests, removed: Requests) {
    kept.Keys !! removed.Keys && kept + removed == m
  }

  lemma PartsNext(m: Requests, kept: Requests, removed: Requests, id: string)
    requires Parts(m, kept, removed) && id in kept
    ensures Parts(m, kept - {id}, removed[id := kept[id]])
  {
  }

  lemma PartsCompose(m: Requests, live: Requests, kept: Requests, expired: Requests, evicted: Requests)
    requires Parts(m, live, expired) && Parts(live, kept, evicted)
    ensures Parts(m, kept, expired + evicted)
  {
  }

  lemma PartsWithout(m: Requests, kept: Requests, removed: Requests, id: string, r: ToolRequest)
    requires Parts(m, kept, removed) && id !in m
    ensures kept[id := r] - {id} + removed == m && kept + removed == m
  {
  }

  lemma PartsWhole(m: Requests, kept: Requests, removed: Requests)
    requires Parts(m, kept, removed)
    ensures kept + removed == m && (removed == map[] <==> kept == m)
  {
    assert removed.Keys <= (kept + removed).Keys;
    if kept == m { assert removed.Keys == {}; }
  }

  lemma KeyedWith(m: Requests, id: string, r: ToolRequest)
    requires Keyed(m) && r.id == id
    ensures Keyed(m[id := r])
  {
  }

  lemma PartsKeyed(m: Requests, kept: Requests, removed: Requests)
    requires Parts(m, kept, removed) && Keyed(m)
    ensures Keyed(kept)
  {
    assert forall id | id in kept :: id in m && m[id] == kept[id];
  }

  /** Every completed request of live, in some order, once each. */
  ghost predicate ListsCompleted(s: seq<ToolRequest>, live: Requests) {
    && DistinctIDs(s)
    && (forall r | r in s :: r.id in live && live[r.id] == r && Completed(r))
    && (forall id | id in live && Completed(live[id]) :: live[id] in s)
  }

  /** live without the first k of s. */
  ghost predicate Evicted(live: Requests, kept: Requests, s: seq<ToolRequest>, k: nat)
    requires k <= |s|
  {
    && kept.Keys <= live.Keys && (forall id | id in kept :: kept[id] == live[id])
    && (forall id | id in live :: id in kept <==> live[id] !in s[..k])
  }

  lemma EvictNext(live: Requests, kept: Requests, removed: Requests, s: seq<ToolRequest>, k: nat)
    requires k < |s| && Evicted(live, kept, s, k) && Keyed(live) && ByAge(s) && ListsCompleted(s, live)
    requires Parts(live, kept, removed)
    ensures s[k].id in kept && |kept - {s[k].id}| == |kept| - 1
    ensures Evicted(live, kept - {s[k].id}, s, k + 1) && Parts(live, kept - {s[k].id}, removed[s[k].id := s[k]])
  {
    hide Parts, Keyed, ByAge, ListsCompleted, Evicted;
    EvictedNext(live, kept, s, k);
    RemoveOne(kept, s[k].id);
    PartsNext(live, kept, removed, s[k].id);
  }

  lemma EvictedNext(live: Requests, kept: Requests, s: seq<ToolRequest>, k: nat)
    requires k < |s| && Evicted(live, kept, s, k) && Keyed(live) && ByAge(s) && ListsCompleted(s, live)
    ensures s[k].id in kept && kept[s[k].id] == s[k] && Evicted(live, kept - {s[k].id}, s, k + 1)
  {
    hide Completed, DistinctIDs;
    assert s[k] in s;
    assert s[..k + 1] == s[..k] + [s[k]];
    if s[k] in s[..k] {
      var i :| 0 <= i < k && s[i] == s[k];
      NotBeforeItself(s[k]);
      assert false;
    }
  }

  lemma EvictStart(live: Requests, s: seq<ToolRequest>)
    ensures Evicted(live, live, s, 0) && Parts(live, live, map[])
  {
    assert live + map[] == live;
  }

  lemma NotBeforeItself(r: ToolRequest)
    ensures !Before(r, r)
  {
    LexIrreflexive(r.id);
  }

  lemma {:induction false} LexIrreflexive(s: string)
    ensures !LexLess(s, s)
  {
    if s != "" { LexIrreflexive(s[1..]); }
  }

  lemma InPrefix<T>(s: seq<T>, j: nat, k: nat)
    requires j < |s| && k <= |s|
    ensures j < k ==> s[j] in s[..k]
  {
    if j < k { assert s[..k][j] == s[j]; }
  }

  /** What the eviction loop leaves is what MakesRoom asks for. */
  lemma EvictionMakesRoom(m: Requests, kept: Requests, s: seq<ToolRequest>, k: nat, now: Time, reserve: nat, capacity: nat)
    requires var live := Live(m, now); |live| + reserve > capacity && ListsCompleted(s, live) && ByAge(s)
    requires k <= |s| && Evicted(Live(m, now), kept, s, k)
    requires |kept| + reserve == capacity || (|kept| + reserve > capacity && k == |s|)
    ensures MakesRoom(m, kept, now, reserve, capacity)
  {
    hide Before, Completed, Expires;
    var live := Live(m, now);
    forall id | id in live && id !in kept
      ensures Completed(live[id])
    {
      assert live[id] in s;
    }
    forall a, b | a in live && a !in kept && b in kept && Completed(kept[b])
      ensures Before(live[a], kept[b])
    {
      var i :| 0 <= i < |s[..k]| && s[..k][i] == live[a];
      var j :| 0 <= j < |s| && s[j] == live[b];
      InPrefix(s, j, k);
    }
    if k == |s| {
      assert s[..k] == s;
    }
  }

  // ----- the store

  class LiveStore {
    var requests: Requests
    var file: Requests
    const persistent: bool
    const capacity: nat
    const ttl: nat

    ghost predicate Valid()
      reads this
    {
      Keyed(requests) && Keyed(file) && (!persistent ==> file == map[])
    }

    ghost function Value(): Store
      reads this
    {
      Store(requests, file, persistent, capacity, ttl)
    }

    constructor (persistent: bool, capacity: nat, ttl: nat)
      ensures Valid() && Value() == Store(map[], map[], persistent, capacity, ttl)
    {
      this.persistent, this.capacity, this.ttl := persistent, capacity, ttl;
      requests, file := map[], map[];
    }

    /** persistLocked: `write` is how the file system behaves. */
    method PersistLocked(write: Write) returns (ok: bool)
      modifies this`file
      ensures ok == (!persistent || write == Written)
      ensures file == if persistent && write != LostBefore then requests else old(file)
    {
      if !persistent { return true; }
      if write == LostBefore { return false; }
      file := requests;
      return write == Written;
    }

    method DropExpired(now: Time) returns (removed: Requests)
      modifies this`requests
      ensures requests == Live(old(requests), now) && Parts(old(requests), requests, removed)
    {
      removed := map[];
      var todo := requests.Keys;
      ghost var m := requests;
      while todo != {}
        invariant todo <= m.Keys
        invariant requests == map id | id in m && (id in todo || !(Expires(m[id], now) && Actionable(m[id]))) :: m[id]
        invariant removed == m - requests.Keys
        decreases |todo|
      {
        var id :| id in todo;
        todo := todo - {id};
        if Expires(requests[id], now) && Actionable(requests[id]) {
          removed := removed[id := requests[id]];
          requests := requests - {id};
        }
      }
    }

    method ListCompleted() returns (completed: seq<ToolRequest>)
      requires Keyed(requests)
      ensures ListsCompleted(completed, requests)
    {
      completed := [];
      var todo := requests.Keys;
      while todo != {}
        invariant todo <= requests.Keys && DistinctIDs(completed)
        invariant forall r | r in completed :: r.id in requests.Keys - todo && requests[r.id] == r && Completed(r)
        invariant forall id | id in requests.Keys - todo && Completed(requests[id]) :: requests[id] in completed
        decreases |todo|
      {
        hide Completed;
        var id :| id in todo;
        ghost var before := completed;
        if Completed(requests[id]) {
          assert forall r | r in completed :: r.id != id;
          completed := completed + [requests[id]];
        }
        todo := todo - {id};
        assert forall r | r in before :: r in completed;
      }
    }

    /** The eviction loop of makeRoomLocked. */
    method Evict(completed: seq<ToolRequest>, reserve: nat) returns (removed: Requests, ghost k: nat)
      requires Keyed(requests) && ListsCompleted(completed, requests) && ByAge(completed)
      requires |requests| + reserve > capacity
      modifies this`requests
      ensures k <= |completed| && Evicted(old(requests), requests, completed, k)
      ensures |requests| + reserve == capacity || (|requests| + reserve > capacity && k == |completed|)
      ensures Parts(old(requests), requests, removed)
    {
      hide *;
      removed, k := map[], 0;
      ghost var live := requests;
      EvictStart(live, completed);
      var i := 0;
      while i < |completed| && |requests| + reserve > capacity
        invariant i <= |completed| && Evicted(live, requests, completed, i)
        invariant |requests| + reserve >= capacity && Parts(live, requests, removed)
      {
        removed := EvictOne(completed, i, removed, live);
        i := i + 1;
      }
      k := i;
    }

    /** One request moves from the map to those removed. */
    method EvictOne(completed: seq<ToolRequest>, i: nat, removed: Requests, ghost live: Requests) returns (more: Requests)
      requires i < |completed| && Evicted(live, requests, completed, i) && Parts(live, requests, removed)
      requires Keyed(live) && ByAge(completed) && ListsCompleted(completed, live)
      modifies this`requests
      ensures Evicted(live, requests, completed, i + 1) && Parts(live, requests, more) && |requests| == old(|requests|) - 1
    {
      hide *;
      EvictNext(live, requests, removed, completed, i);
      more := removed[completed[i].id := completed[i]];
      requests := requests - {completed[i].id};
    }

    /** makeRoomLocked. */
    method MakeRoom(now: Time, reserve: nat) returns (removed: Requests)
      requires Keyed(requests)
      modifies this`requests
      ensures MakesRoom(old(requests), requests, now, reserve, capacity)
      ensures Parts(old(requests), requests, removed)
    {
      hide *;
      ghost var m := requests;
      removed := DropExpired(now);
      ghost var live := requests;
      PartsKeyed(m, live, removed);
      if |requests| + reserve <= capacity {
        NoEviction(m, now, reserve, capacity);
        return;
      }
      var listed := ListCompleted();
      assert DistinctIDs(listed) by { ListedOnce(listed, live); }
      var completed := SortByAge(listed);
      SortedList(listed, completed, live);
      var evicted, k := Evict(completed, reserve);
      EvictionMakesRoom(m, requests, completed, k, now, reserve, capacity);
      PartsCompose(m, live, requests, removed, evicted);
      removed := removed + evicted;
    }

    /** CreateForWithPreview; `kept` is what eviction left before the request went in. */
    method CreateFor(id: string, tool: string, sensitivity: Sensitivity, args: string, salt: string, preview: string,
                     diff: string, actor: Actor, now: Time, write: Write) returns (answer: Answer, ghost kept: Requests)
      requires Valid() && id !in requests
      modifies this
      ensures Valid() && MakesRoom(old(requests), kept, now, 1, capacity)
      ensures (Value(), answer) == Create(old(Value()), NewRequest(old(Value()), id, tool, sensitivity, args, salt,
                                                                  preview, diff, actor, now), kept, write)
    {
      hide Live, Before, LexLess, Completed, PreviewDigest, MakesRoom;
      var r := ToolRequest(id, tool, salt, ArgsSum(salt, args), PreviewDigest(preview, salt), sensitivity, diff,
                           Waiting, actor, NOBODY, NOBODY, now, now + ttl, 0, 0);
      ghost var m := requests;
      var removed := MakeRoom(now, 1);
      kept := requests;
      PartsKeyed(m, kept, removed);
      PartsWithout(m, kept, removed, id, r);
      KeyedWith(kept, id, r);
      hide MakesRoom, Parts, Keyed;
      if |requests| >= capacity {
        requests := requests + removed;
        return Refusal(CapacityExhausted), kept;
      }
      requests := requests[id := r];
      var ok := PersistLocked(write);
      if !ok {
        requests := requests - {id};
        requests := requests + removed;
        return Refusal(WriteFailed), kept;
      }
      return Done(r), kept;
    }

    /** The tail every decision shares: write the new request, or put the old one back. */
    method Put(id: string, r: ToolRequest, write: Write) returns (answer: Answer)
      requires Valid() && id in requests && r.id == id
      modifies this
      ensures Valid() && (Value(), answer) == Update(old(Value()), id, r, write)
    {
      var before := requests[id];
      requests := requests[id := r];
      var ok := PersistLocked(write);
      if !ok {
        requests := requests[id := before];
        assert requests == old(requests);
        return Refusal(WriteFailed);
      }
      return Done(r);
    }

    method ApproveFor(id: string, actor: Actor, gateAuthorized: bool, now: Time, write: Write) returns (answer: Answer)
      requires Valid()
      modifies this
      ensures Valid() && (Value(), answer) == Approve(old(Value()), id, actor, gateAuthorized, now, write)
    {
      if id !in requests { return Refusal(UnknownRequest); }
      var r := requests[id];
      if Expires(r, now) { return Refusal(RequestExpired); }
      if r.sensitivity == Destructive && !gateAuthorized { return Refusal(GateRequired); }
      if r.status == Granted { return Done(r); }
      if r.status != Waiting { return Refusal(AlreadyDecided); }
      answer := Put(id, r.(status := Granted, decidedAt := now, approvedBy := actor), write);
    }

    method RejectFor(id: string, actor: Actor, now: Time, write: Write) returns (answer: Answer)
      requires Valid()
      modifies this
      ensures Valid() && (Value(), answer) == Reject(old(Value()), id, actor, now, write)
    {
      if id !in requests { return Refusal(UnknownRequest); }
      var r := requests[id];
      if Expires(r, now) { return Refusal(RequestExpired); }
      if !Actionable(r) { return Refusal(AlreadyDecided); }
      answer := Put(id, r.(status := Refused, decidedAt := now, rejectedBy := actor), write);
    }

    method BeginExecution(id: string, tool: string, args: string, preview: string, actor: Actor,
                          gateAuthorized: bool, now: Time, write: Write) returns (answer: Answer)
      requires Valid()
      modifies this
      ensures Valid()
      ensures (Value(), answer) == Begin(old(Value()), id, tool, args, preview, actor, gateAuthorized, now, write)
    {
      if id !in requests { return Refusal(UnknownRequest); }
      var r := requests[id];
      if Expires(r, now) { return Refusal(RequestExpired); }
      if r.status != Granted { return Refusal(NotGranted); }
      if r.sensitivity == Destructive && !gateAuthorized { return Refusal(GateRequired); }
      if !RequesterMatches(r, actor) { return Refusal(WrongRequester); }
      if r.toolName != tool { return Refusal(WrongTool); }
      if r.argsDigest != ArgsSum(r.salt, args) { return Refusal(WrongArguments); }
      if r.previewDigest != NoSum && r.previewDigest != PreviewDigest(preview, r.salt) { return Refusal(StalePreview); }
      answer := Put(id, r.(status := Executing, consumedAt := now), write);
    }

    method FinishExecution(id: string, succeeded: bool, actor: Actor, gateAuthorized: bool, now: Time, write: Write)
      returns (answer: Answer)
      requires Valid()
      modifies this
      ensures Valid() && (Value(), answer) == Finish(old(Value()), id, succeeded, actor, gateAuthorized, now, write)
    {
      if id !in requests { return Refusal(UnknownRequest); }
      var r := requests[id];
      if r.status != Executing { return Refusal(NotExecuting); }
      if r.sensitivity == Destructive && !gateAuthorized { return Refusal(GateRequired); }
      if !RequesterMatches(r, actor) { return Refusal(WrongRequester); }
      answer := Put(id, r.(status := if succeeded then Executed else Failed, decidedAt := now), write);
    }

    /** The loop of loadLocked over the file. */
    method ReadFile(now: Time) returns (next: Requests, changed: bool)
      ensures next == Recovered(file, now) && changed == (next != file)
    {
      hide Recovered, Except;
      next, changed := map[], false;
      var todo := file.Keys;
      NothingRead(file, now);
      while todo != {}
        invariant todo <= file.Keys && next == Recovered(Except(file, todo), now)
        invariant changed == (next != Except(file, todo))
        decreases |todo|
      {
        var id :| id in todo;
        var r := file[id];
        ReadOne(file, todo, id, now);
        todo := todo - {id};
        if Expires(r, now) && Actionable(r) {
          changed := true;
        } else {
          if r.status == Executing {
            r := r.(status := Failed, decidedAt := now);
            changed := true;
          }
          next := next[id := r];
        }
      }
      AllRead(file);
    }

    /** The end of loadLocked, with next what was read and changed whether it differs from the file. */
    method AdoptNext(next: Requests, changed: bool, now: Time, write: Write) returns (ghost kept: Requests)
      requires persistent && Keyed(next) && Keyed(file) && changed == (next != file)
      modifies this
      ensures Valid() && MakesRoom(next, kept, now, 0, capacity)
      ensures Value() == Adopt(old(Value()), next, kept, write)
    {
      hide Live, Before, Completed, MakesRoom;
      requests := next;
      var removed := MakeRoom(now, 0);
      kept := requests;
      PartsKeyed(next, kept, removed);
      PartsWhole(next, kept, removed);
      hide Parts, Keyed;
      if |requests| > capacity {
        requests := requests + removed;
        return;
      }
      if removed != map[] || changed {
        var _ := PersistLocked(write);
      }
    }

    /** A new process: nothing in memory, then loadLocked. */
    method Reopen(readable: bool, now: Time, write: Write) returns (ghost kept: Requests)
      requires Valid()
      modifies this
      ensures Valid() && (persistent && readable ==> MakesRoom(Recovered(old(file), now), kept, now, 0, capacity))
      ensures Value() == Restart(old(Value()), kept, readable, now, write)
    {
      hide MakesRoom, Adopt;
      requests, kept := map[], map[];
      if !persistent || !readable { return; }
      var next, changed := ReadFile(now);
      RecoveredKeyed(file, now);
      hide Recovered;
      kept := AdoptNext(next, changed, now, write);
    }
  }

  /** The part of the file read so far. */
  ghost function Except(file: Requests, todo: set<string>): Requests { map id | id in file && id !in todo :: file[id] }

  lemma NothingRead(file: Requests, now: Time)
    ensures Except(file, file.Keys) == map[] && Recovered(map[], now) == map[]
  {
  }

  lemma AllRead(file: Requests)
    ensures Except(file, {}) == file
  {
  }

  /** One more entry is read: what becomes of the part read, and when that still equals the file's. */
  lemma ReadOne(file: Requests, todo: set<string>, id: string, now: Time)
    requires id in todo && todo <= file.Keys
    ensures var seen, r := Except(file, todo), file[id]; var more := Except(file, todo - {id});
      if Expires(r, now) && Actionable(r) then Recovered(more, now) == Recovered(seen, now) != more
      else
        && Recovered(more, now) == Recovered(seen, now)[id := Reloaded(r, now)]
        && (Recovered(more, now) != more <==> Recovered(seen, now) != seen || r.status == Executing)
  {
    var seen, r := Except(file, todo), file[id];
    assert Except(file, todo - {id}) == seen[id := r] && id !in seen && id !in Recovered(seen, now);
    hide Except;
    RecoveredWith(seen, id, r, now);
    hide Recovered;
    if !(Expires(r, now) && Actionable(r)) { AddSame(Recovered(seen, now), seen, id, Reloaded(r, now), r); }
  }

  lemma RecoveredWith(seen: Requests, id: string, r: ToolRequest, now: Time)
    requires id !in seen
    ensures id !in Recovered(seen, now)
    ensures Recovered(seen[id := r], now) ==
      if Expires(r, now) && Actionable(r) then Recovered(seen, now) else Recovered(seen, now)[id := Reloaded(r, now)]
  {
    hide Expires, Actionable;
  }

  lemma AddSame(a: Requests, b: Requests, id: string, x: ToolRequest, y: ToolRequest)
    requires id !in a && id !in b
    ensures a[id := x] == b[id := y] <==> a == b && x == y
  {
    if a[id := x] == b[id := y] {
      assert a == a[id := x] - {id};
      assert b == b[id := y] - {id};
      assert a[id := x][id] == b[id := y][id];
    }
  }

  lemma RecoveredKeyed(file: Requests, now: Time)
    requires Keyed(file)
    ensures Keyed(Recovered(file, now))
  {
    hide Expires, Actionable;
  }

  lemma SortedList(s: seq<ToolRequest>, t: seq<ToolRequest>, live: Requests)
    requires ListsCompleted(s, live) && ByAge(t) && forall x :: x in t <==> x in s
    ensures ListsCompleted(t, live)
  {
    hide Completed;
    forall i, j | 0 <= i < j < |t|
      ensures t[i].id != t[j].id
    {
      assert t[i] in t && t[j] in t;
      if t[i].id == t[j].id { NotBeforeItself(t[i]); }
    }
  }

  lemma ListedOnce(s: seq<ToolRequest>, live: Requests)
    requires ListsCompleted(s, live)
    ensures DistinctIDs(s)
  {
  }

  lemma NoEviction(m: Requests, now: Time, reserve: nat, capacity: nat)
    requires |Live(m, now)| + reserve <= capacity
    ensures MakesRoom(m, Live(m, now), now, reserve, capacity)
  {
    hide Before;
  }
}
