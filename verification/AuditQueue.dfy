/** The concurrent side of the audit runtime: normal appends through a bounded queue
    and one worker, critical appends from any number of threads, Flush and Close.
    Each step is one section under the runtime's mutex, or one persist under the
    append mutex; threads interleave freely. Closing a closed channel or sending on
    a closed one would panic, which the state records. */
module AuditQueue {
  import opened Wrappers
  import opened AuditChain
  import opened AuditRuntime
  import Safety = AuditSafety

  /** Where a calling goroutine stands. */
  datatype Thread =
    | CriticalWait(event: Event, channel: nat)   // in waitIdle
    | CriticalReady(event: Event)                // saw the channel closed
    | CriticalHolds(event: Event)                // has begun pending
    | CriticalEnds                               // has persisted
    | FlushStart(mark: nat)
    | FlushWait(mark: nat, channel: nat)
    | FlushReady(mark: nat)
    | FlushDone(mark: nat, error: Option<Error>)
    | CloseWait

  datatype Worker =
    | Idle
    | Busy(event: Event)
    | Wrote(event: Event, failed: Option<Error>)
    | Recorded(event: Event)
    | Exited

  datatype System = System(
    audit: Runtime, capacity: nat, queue: seq<Event>, queueClosed: bool,
    pending: int, idle: nat, channels: nat, closedChannels: set<nat>,
    closed: bool, firstErr: Option<Error>, worker: Worker, threads: map<nat, Thread>,
    panicked: bool,
    accepted: seq<Event>,   // normal events Append took, in order
    finished: nat)          // how many of them the worker is done with

  /** NewRuntime: the first idle channel is born closed. */
  function Start(audit: Runtime, capacity: nat): System {
    System(audit, capacity, [], false, 0, 0, 1, {0}, false, None, Idle, map[], false, [], 0)
  }

  function BeginPending(s: System): System {
    if s.pending == 0 then s.(pending := 1, idle := s.channels, channels := s.channels + 1)
    else s.(pending := s.pending + 1)
  }

  function EndPending(s: System): System {
    if s.pending - 1 != 0 then s.(pending := s.pending - 1)
    else s.(pending := 0, closedChannels := s.closedChannels + {s.idle},
            panicked := s.panicked || s.idle in s.closedChannels)
  }

  function Send(s: System, e: Event): System {
    s.(queue := s.queue + [e], accepted := s.accepted + [e], panicked := s.panicked || s.queueClosed)
  }

  datatype Op =
    | AppendNormal(event: Event, admit: bool)
    | CriticalCall(t: nat, event: Event)
    | CriticalEnter(t: nat)
    | CriticalPersist(t: nat, now: nat, faults: seq<Fault>)
    | CriticalLeave(t: nat)
    | WorkerTake
    | WorkerPersist(now: nat, faults: seq<Fault>)
    | WorkerRecord
    | WorkerEnd
    | WorkerExit
    | ReplayCall(faults: seq<Fault>)
    | FlushCall(t: nat)
    | FlushGrab(t: nat)
    | FlushFinish(t: nat, journalFails: bool)
    | CloseCall(t: nat)
    | CloseAwake(t: nat)
    | Awake(t: nat)          // a waiting select sees its idle channel closed
    | Abandon(t: nat)        // a waiting select sees its context done

  function SetThread(s: System, t: nat, th: Thread): System { s.(threads := s.threads[t := th]) }
  function DropThread(s: System, t: nat): System { s.(threads := s.threads - {t}) }

  predicate Awaits(s: System, t: nat) {
    t in s.threads && (s.threads[t].CriticalWait? || s.threads[t].FlushWait?)
  }

  /** One step; a step that is not enabled leaves the system alone. */
  function Next(cfg: Config, s: System, op: Op): System {
    match op
    case AppendNormal(event, admit) =>
      if s.closed then s
      else
        var s1 := BeginPending(s);
        if admit && |s.queue| < s.capacity then Send(s1, event) else EndPending(s1)
    case CriticalCall(t, event) =>
      if t in s.threads then s else SetThread(s, t, CriticalWait(event, s.idle))
    case CriticalEnter(t) =>
      if t !in s.threads || !s.threads[t].CriticalReady? then s
      else if s.closed then DropThread(s, t)
      else SetThread(BeginPending(s), t, CriticalHolds(s.threads[t].event))
    case CriticalPersist(t, now, faults) =>
      if t !in s.threads || !s.threads[t].CriticalHolds? then s
      else SetThread(s.(audit := Persist(cfg, s.audit, s.threads[t].event, now, faults).0), t, CriticalEnds)
    case CriticalLeave(t) =>
      if t !in s.threads || !s.threads[t].CriticalEnds? then s else DropThread(EndPending(s), t)
    case WorkerTake =>
      if s.worker != Idle || s.queue == [] then s
      else s.(worker := Busy(s.queue[0]), queue := s.queue[1..])
    case WorkerPersist(now, faults) =>
      if !s.worker.Busy? then s
      else
        var (audit, r) := Persist(cfg, s.audit, s.worker.event, now, faults);
        s.(audit := audit, worker := Wrote(s.worker.event, if r.Err? then Some(r.error) else None))
    case WorkerRecord =>
      if !s.worker.Wrote? then s
      else s.(worker := Recorded(s.worker.event),
              firstErr := if s.firstErr.None? then s.worker.failed else s.firstErr)
    case WorkerEnd =>
      if !s.worker.Recorded? then s
      else EndPending(s).(worker := Idle, finished := s.finished + 1)
    case WorkerExit =>
      if s.worker == Idle && s.queue == [] && s.queueClosed then s.(worker := Exited) else s
    case ReplayCall(faults) => s.(audit := Replay(cfg, s.audit, faults).0)
    case FlushCall(t) => if t in s.threads then s else SetThread(s, t, FlushStart(|s.accepted|))
    case FlushGrab(t) =>
      if t !in s.threads || !s.threads[t].FlushStart? then s
      else SetThread(s, t, FlushWait(s.threads[t].mark, s.idle))
    case FlushFinish(t, journalFails) =>
      if t !in s.threads || !s.threads[t].FlushReady? then s
      else SetThread(s, t, FlushDone(s.threads[t].mark, if journalFails then Some(Canceled) else s.firstErr))
    case CloseCall(t) =>
      if t in s.threads || s.closed then s
      else SetThread(s.(closed := true, queueClosed := true, panicked := s.panicked || s.queueClosed), t, CloseWait)
    case CloseAwake(t) =>
      if t !in s.threads || !s.threads[t].CloseWait? || s.worker != Exited then s
      else SetThread(s, t, FlushStart(|s.accepted|))
    case Awake(t) =>
      if !Awaits(s, t) || s.threads[t].channel !in s.closedChannels then s
      else if s.threads[t].CriticalWait? then SetThread(s, t, CriticalReady(s.threads[t].event))
      else SetThread(s, t, FlushReady(s.threads[t].mark))
    case Abandon(t) => if Awaits(s, t) then DropThread(s, t) else s
  }

  function Run(cfg: Config, s: System, ops: seq<Op>): System {
    if ops == [] then s else Next(cfg, Run(cfg, s, ops[..|ops| - 1]), ops[|ops| - 1])
  }

  // ----- the invariant

  ghost predicate Holds(th: Thread) { th.CriticalHolds? || th.CriticalEnds? }

  ghost function Holders(s: System): set<nat> { set t | t in s.threads && Holds(s.threads[t]) }

  /** The event the worker has taken and not yet finished. */
  ghost function InHand(w: Worker): seq<Event> {
    match w
    case Idle => []
    case Exited => []
    case Busy(e) => [e]
    case Wrote(e, _) => [e]
    case Recorded(e) => [e]
  }

  ghost predicate Known(audit: Runtime, e: Event) {
    e.eventID in audit.events && audit.events[e.eventID].event == e
  }

  /** pending counts the queue, the worker's event and the critical appends under way. */
  ghost predicate Counted(s: System) {
    s.pending == |s.queue| + |InHand(s.worker)| + |Holders(s)|
  }

  /** The current idle channel is the newest and the only one that can be open; it is
      closed exactly when nothing is pending. */
  ghost predicate ChannelsOK(s: System) {
    && 0 < s.channels && s.idle == s.channels - 1
    && (forall c | c in s.closedChannels :: c < s.channels)
    && (forall c: nat | c < s.channels - 1 :: c in s.closedChannels)
    && (s.idle in s.closedChannels <==> s.pending == 0)
  }

  ghost predicate QueueOK(s: System) {
    && s.queueClosed == s.closed && !s.panicked
    && s.finished <= |s.accepted| && s.accepted[s.finished..] == InHand(s.worker) + s.queue
    && (s.worker == Exited ==> s.closed && s.queue == [])
  }

  ghost predicate KnownUpTo(s: System, n: nat) {
    n <= |s.accepted| && forall i | 0 <= i < n :: Known(s.audit, s.accepted[i])
  }

  /** Finished events are in the chain unless the first error is set. */
  ghost predicate Accounted(s: System) {
    && (s.firstErr.None? ==> KnownUpTo(s, s.finished))
    && (s.worker.Wrote? && s.worker.failed.None? ==> Known(s.audit, s.worker.event))
    && (s.worker.Recorded? && s.firstErr.None? ==> Known(s.audit, s.worker.event))
  }

  ghost predicate FlushOK(s: System, th: Thread) {
    match th
    case FlushStart(mark) => mark <= |s.accepted|
    case FlushWait(mark, channel) =>
      mark <= |s.accepted| && channel < s.channels && (channel in s.closedChannels ==> mark <= s.finished)
    case FlushReady(mark) => mark <= s.finished
    case FlushDone(mark, error) =>
      mark <= s.finished && (error.None? ==> KnownUpTo(s, mark))
    case _ => true
  }

  ghost predicate FlushesOK(s: System) {
    forall t | t in s.threads :: FlushOK(s, s.threads[t])
  }

  ghost predicate Inv(cfg: Config, s: System) {
    && Safety.Inv(cfg, s.audit) && Counted(s) && ChannelsOK(s) && QueueOK(s) && Accounted(s) && FlushesOK(s)
  }

  lemma StartIsGood(cfg: Config, audit: Runtime, capacity: nat)
    requires Safety.Inv(cfg, audit)
    ensures Inv(cfg, Start(audit, capacity))
  {
    hide Safety.Inv, Known;
    assert Holders(Start(audit, capacity)) == {};
  }

  // ----- pieces of a step

  lemma Quiet(s: System)
    requires Counted(s) && QueueOK(s) && s.pending == 0
    ensures s.finished == |s.accepted| && Holders(s) == {}
  {
  }

  lemma HoldersSet(s: System, t: nat, th: Thread)
    ensures Holders(SetThread(s, t, th)) == if Holds(th) then Holders(s) + {t} else Holders(s) - {t}
  {
  }

  lemma HoldersDrop(s: System, t: nat)
    ensures Holders(DropThread(s, t)) == Holders(s) - {t}
  {
  }

  lemma BeginKeepsChannels(s: System)
    requires ChannelsOK(s) && s.pending >= 0
    ensures ChannelsOK(BeginPending(s)) && BeginPending(s).pending == s.pending + 1
    ensures s.channels <= BeginPending(s).channels
  {
  }

  lemma EndKeepsChannels(s: System)
    requires ChannelsOK(s) && s.pending > 0
    ensures ChannelsOK(EndPending(s)) && EndPending(s).pending == s.pending - 1
    ensures EndPending(s).panicked == s.panicked
  {
  }

  /** Flush marks survive when accepted, finished, channels and knowledge only grow, and a
      channel closes only once everything accepted is finished. */
  lemma FlushesSurvive(s: System, s': System)
    requires FlushesOK(s) && s'.threads.Keys <= s.threads.Keys
    requires forall t | t in s'.threads :: s'.threads[t] == s.threads[t]
    requires s.accepted <= s'.accepted && s.finished <= s'.finished && s.channels <= s'.channels
    requires s.finished <= |s.accepted|
    requires forall c | c in s'.closedChannels && c !in s.closedChannels && c < s.channels :: |s.accepted| <= s'.finished
    requires forall e: Event | Known(s.audit, e) :: Known(s'.audit, e)
    ensures FlushesOK(s')
  {
    forall t | t in s'.threads
      ensures FlushOK(s', s'.threads[t])
    {
      assert FlushOK(s, s.threads[t]);
    }
  }

  lemma KnowledgeGrows(cfg: Config, st: Runtime, event: Event, now: nat, faults: seq<Fault>)
    requires Safety.Inv(cfg, st)
    ensures var (st', r) := Persist(cfg, st, event, now, faults);
      && Safety.Inv(cfg, st') && (r.Ok? ==> Known(st', event))
      && forall e: Event | Known(st, e) :: Known(st', e)
  {
    hide Safety.Inv, Persist;
    Safety.PersistKeepsInv(cfg, st, event, now, faults);
  }

  /** Everything but the audit state, the worker and one thread is as before. */
  lemma AuditMoves(cfg: Config, s: System, s': System)
    requires Inv(cfg, s) && Safety.Inv(cfg, s'.audit)
    requires s' == s.(audit := s'.audit)
    requires forall e: Event | Known(s.audit, e) :: Known(s'.audit, e)
    ensures Inv(cfg, s')
  {
    hide Safety.Inv, Known;
    assert Holders(s') == Holders(s);
    FlushesSurvive(s, s');
  }

  lemma ThreadMoves(cfg: Config, s: System, t: nat, th: Thread)
    requires Inv(cfg, s) && FlushOK(s, th)
    requires Holds(th) <==> t in s.threads && Holds(s.threads[t])
    ensures Inv(cfg, SetThread(s, t, th))
  {
    hide Safety.Inv, Known;
    HoldersSet(s, t, th);
    var s' := SetThread(s, t, th);
    assert Holders(s') == Holders(s);
    forall x | x in s'.threads
      ensures FlushOK(s', s'.threads[x])
    {
      if x != t { assert FlushOK(s, s.threads[x]); }
    }
  }

  lemma ThreadDrops(cfg: Config, s: System, t: nat)
    requires Inv(cfg, s) && t in s.threads && !Holds(s.threads[t])
    ensures Inv(cfg, DropThread(s, t))
  {
    hide Safety.Inv, Known;
    HoldersDrop(s, t);
    assert Holders(DropThread(s, t)) == Holders(s);
    FlushesSurvive(s, DropThread(s, t));
  }

  // ----- the steps that move the counter

  lemma AppendKeepsInv(cfg: Config, s: System, event: Event, admit: bool)
    requires Inv(cfg, s)
    ensures Inv(cfg, Next(cfg, s, AppendNormal(event, admit)))
  {
    hide Safety.Inv, Known;
    if !s.closed {
      BeginKeepsChannels(s);
      var s1 := BeginPending(s);
      assert Holders(s1) == Holders(s);
      if admit && |s.queue| < s.capacity {
        var s' := Send(s1, event);
        assert Holders(s') == Holders(s);
        assert s'.accepted[s'.finished..] == s.accepted[s.finished..] + [event];
        FlushesSurvive(s, s');
      } else {
        EndKeepsChannels(s1);
        var s' := EndPending(s1);
        assert Holders(s') == Holders(s);
        if s'.pending == 0 { Quiet(s); }
        FlushesSurvive(s, s');
      }
    }
  }

  lemma EnterKeepsInv(cfg: Config, s: System, t: nat)
    requires Inv(cfg, s) && t in s.threads && s.threads[t].CriticalReady? && !s.closed
    ensures Inv(cfg, SetThread(BeginPending(s), t, CriticalHolds(s.threads[t].event)))
  {
    hide Safety.Inv, Known;
    BeginKeepsChannels(s);
    var s1 := BeginPending(s);
    var s' := SetThread(s1, t, CriticalHolds(s.threads[t].event));
    HoldersSet(s1, t, CriticalHolds(s.threads[t].event));
    assert Holders(s1) == Holders(s) && t !in Holders(s);
    forall x | x in s'.threads
      ensures FlushOK(s', s'.threads[x])
    {
      if x != t { assert FlushOK(s, s.threads[x]); }
    }
  }

  lemma LeaveKeepsInv(cfg: Config, s: System, t: nat)
    requires Inv(cfg, s) && t in s.threads && s.threads[t].CriticalEnds?
    ensures Inv(cfg, DropThread(EndPending(s), t))
  {
    hide Safety.Inv, Known;
    assert t in Holders(s);
    EndKeepsChannels(s);
    var s1 := EndPending(s);
    var s' := DropThread(s1, t);
    HoldersDrop(s1, t);
    assert Holders(s1) == Holders(s);
    if s1.pending == 0 { assert |Holders(s)| == 1 && |s.queue| + |InHand(s.worker)| == 0; }
    FlushesSurvive(s, s');
  }

  lemma EndKeepsInv(cfg: Config, s: System)
    requires Inv(cfg, s) && s.worker.Recorded?
    ensures Inv(cfg, EndPending(s).(worker := Idle, finished := s.finished + 1))
  {
    hide Safety.Inv, Known;
    EndKeepsChannels(s);
    var s' := EndPending(s).(worker := Idle, finished := s.finished + 1);
    assert Holders(s') == Holders(s);
    assert s.accepted[s.finished] == s.accepted[s.finished..][0] == s.worker.event;
    assert s.accepted[s.finished + 1..] == s.accepted[s.finished..][1..];
    if s'.pending == 0 { Quiet(s'); }
    FlushesSurvive(s, s');
  }

  // ----- the worker's other steps

  lemma WorkerKeepsInv(cfg: Config, s: System, op: Op)
    requires Inv(cfg, s) && (op.WorkerTake? || op.WorkerRecord? || op.WorkerExit?)
    ensures Inv(cfg, Next(cfg, s, op))
  {
    hide Safety.Inv, Known;
    var s' := Next(cfg, s, op);
    assert Holders(s') == Holders(s);
    if op.WorkerTake? && s' != s { assert s.queue == [s.queue[0]] + s.queue[1..]; }
    FlushesSurvive(s, s');
  }

  lemma WorkerPersistKeepsInv(cfg: Config, s: System, now: nat, faults: seq<Fault>)
    requires Inv(cfg, s)
    ensures Inv(cfg, Next(cfg, s, WorkerPersist(now, faults)))
  {
    if s.worker.Busy? {
      KnowledgeGrows(cfg, s.audit, s.worker.event, now, faults);
      hide Inv, Safety.Inv, Known, Persist, Next;
      WorkerPersistIs(cfg, s, now, faults);
      var (audit, r) := Persist(cfg, s.audit, s.worker.event, now, faults);
      AuditMoves(cfg, s, s.(audit := audit));
      WorkerWrote(cfg, s.(audit := audit), if r.Err? then Some(r.error) else None);
    }
  }

  lemma WorkerPersistIs(cfg: Config, s: System, now: nat, faults: seq<Fault>)
    requires s.worker.Busy?
    ensures var (audit, r) := Persist(cfg, s.audit, s.worker.event, now, faults);
      Next(cfg, s, WorkerPersist(now, faults))
      == s.(audit := audit, worker := Wrote(s.worker.event, if r.Err? then Some(r.error) else None))
  {
    hide Persist;
  }

  lemma WorkerWrote(cfg: Config, s: System, failed: Option<Error>)
    requires Inv(cfg, s) && s.worker.Busy? && (failed.None? ==> Known(s.audit, s.worker.event))
    ensures Inv(cfg, s.(worker := Wrote(s.worker.event, failed)))
  {
    hide Safety.Inv, Known;
    var s' := s.(worker := Wrote(s.worker.event, failed));
    assert Holders(s') == Holders(s);
    FlushesSurvive(s, s');
  }

  lemma CloseKeepsInv(cfg: Config, s: System, t: nat)
    requires Inv(cfg, s)
    ensures Inv(cfg, Next(cfg, s, CloseCall(t)))
  {
    hide Safety.Inv, Known;
    if t !in s.threads && !s.closed {
      var s1 := s.(closed := true, queueClosed := true);
      assert Holders(s1) == Holders(s);
      FlushesSurvive(s, s1);
      ThreadMoves(cfg, s1, t, CloseWait);
    }
  }

  lemma CriticalPersistKeepsInv(cfg: Config, s: System, t: nat, now: nat, faults: seq<Fault>)
    requires Inv(cfg, s)
    ensures Inv(cfg, Next(cfg, s, CriticalPersist(t, now, faults)))
  {
    if t in s.threads && s.threads[t].CriticalHolds? {
      KnowledgeGrows(cfg, s.audit, s.threads[t].event, now, faults);
      hide Inv, Known, Persist, Safety.Inv, Next;
      CriticalPersistIs(cfg, s, t, now, faults);
      var s1 := s.(audit := Persist(cfg, s.audit, s.threads[t].event, now, faults).0);
      AuditMoves(cfg, s, s1);
      ThreadMoves(cfg, s1, t, CriticalEnds);
    }
  }

  lemma CriticalPersistIs(cfg: Config, s: System, t: nat, now: nat, faults: seq<Fault>)
    requires t in s.threads && s.threads[t].CriticalHolds?
    ensures Next(cfg, s, CriticalPersist(t, now, faults))
         == SetThread(s.(audit := Persist(cfg, s.audit, s.threads[t].event, now, faults).0), t, CriticalEnds)
  {
    hide Persist;
  }

  lemma ReplayCallKeepsInv(cfg: Config, s: System, faults: seq<Fault>)
    requires Inv(cfg, s)
    ensures Inv(cfg, Next(cfg, s, ReplayCall(faults)))
  {
    Safety.StepKeepsInv(cfg, s.audit, ReplayOp(faults));
    if cfg.hasSpool { Safety.ReplayKeepsInv(cfg, s.audit, faults, 0); }
    hide Safety.Inv, Replay, Safety.Chain, Safety.Tail;
    AuditMoves(cfg, s, Next(cfg, s, ReplayCall(faults)));
  }

  /** A flush reads the first error after everything it waited for is finished. */
  lemma FlushKeepsInv(cfg: Config, s: System, op: Op)
    requires Inv(cfg, s)
    requires op.FlushCall? || op.FlushGrab? || op.FlushFinish? || op.CloseAwake? || op.Awake? || op.CriticalCall?
    ensures Inv(cfg, Next(cfg, s, op))
  {
    hide Safety.Inv, Known;
    var s' := Next(cfg, s, op);
    if s' != s {
      var t := op.t;
      assert s' == SetThread(s, t, s'.threads[t]);
      if t in s.threads { assert FlushOK(s, s.threads[t]); }
      if op.FlushGrab? && s.idle in s.closedChannels { Quiet(s); }
      ThreadMoves(cfg, s, t, s'.threads[t]);
    }
  }

  lemma NextKeepsInv(cfg: Config, s: System, op: Op)
    requires Inv(cfg, s)
    ensures Inv(cfg, Next(cfg, s, op))
  {
    hide Inv, Persist, Replay, BeginPending, EndPending;
    match op
    case AppendNormal(event, admit) => AppendKeepsInv(cfg, s, event, admit);
    case CriticalEnter(t) =>
      if t in s.threads && s.threads[t].CriticalReady? {
        if s.closed { ThreadDrops(cfg, s, t); } else { EnterKeepsInv(cfg, s, t); }
      }
    case CriticalPersist(t, now, faults) => CriticalPersistKeepsInv(cfg, s, t, now, faults);
    case CriticalLeave(t) =>
      if t in s.threads && s.threads[t].CriticalEnds? { LeaveKeepsInv(cfg, s, t); }
    case WorkerTake => WorkerKeepsInv(cfg, s, op);
    case WorkerPersist(now, faults) => WorkerPersistKeepsInv(cfg, s, now, faults);
    case WorkerRecord => WorkerKeepsInv(cfg, s, op);
    case WorkerEnd => if s.worker.Recorded? { EndKeepsInv(cfg, s); }
    case WorkerExit => WorkerKeepsInv(cfg, s, op);
    case ReplayCall(faults) => ReplayCallKeepsInv(cfg, s, faults);
    case CloseCall(t) => CloseKeepsInv(cfg, s, t);
    case Abandon(t) => if Awaits(s, t) { ThreadDrops(cfg, s, t); }
    case CriticalCall(_, _) => FlushKeepsInv(cfg, s, op);
    case FlushCall(_) => FlushKeepsInv(cfg, s, op);
    case FlushGrab(_) => FlushKeepsInv(cfg, s, op);
    case FlushFinish(_, _) => FlushKeepsInv(cfg, s, op);
    case CloseAwake(_) => FlushKeepsInv(cfg, s, op);
    case Awake(_) => FlushKeepsInv(cfg, s, op);
  }

  lemma {:induction false} RunKeepsInv(cfg: Config, s: System, ops: seq<Op>)
    requires Inv(cfg, s)
    ensures Inv(cfg, Run(cfg, s, ops))
  {
    hide Inv, Next;
    if ops != [] {
      var n := |ops| - 1;
      RunKeepsInv(cfg, s, ops[..n]);
      NextKeepsInv(cfg, Run(cfg, s, ops[..n]), ops[n]);
    }
  }

  /** In every interleaving: no channel is closed twice and nothing is sent on the closed
      queue, and the idle channel is closed exactly when nothing is pending. */
  lemma ChannelsAreSafe(cfg: Config, audit: Runtime, capacity: nat, ops: seq<Op>)
    requires Safety.Inv(cfg, audit)
    ensures var s := Run(cfg, Start(audit, capacity), ops);
      !s.panicked && s.pending >= 0 && (s.idle in s.closedChannels <==> s.pending == 0)
  {
    hide Run, Start, Safety.Inv;
    StartIsGood(cfg, audit, capacity);
    RunKeepsInv(cfg, Start(audit, capacity), ops);
  }

  /** In every interleaving: a Flush that returned nil was called when `mark` normal events
      had been accepted, and each of those events is the event of a record in the chain. */
  lemma FlushMeansPersisted(cfg: Config, audit: Runtime, capacity: nat, ops: seq<Op>, t: nat, i: nat)
    requires Safety.Inv(cfg, audit)
    requires var s := Run(cfg, Start(audit, capacity), ops);
      t in s.threads && s.threads[t].FlushDone? && s.threads[t].error == None && i < s.threads[t].mark
    ensures var s := Run(cfg, Start(audit, capacity), ops);
      && i < |s.accepted|
      && exists k :: 0 <= k < |Safety.Chain(s.audit)| && Safety.Chain(s.audit)[k].record.event == s.accepted[i]
  {
    hide Run, Start, Safety.Chain, Safety.Replicated, Safety.Fingerprinted, Safety.Modes, Safety.Tracked;
    StartIsGood(cfg, audit, capacity);
    RunKeepsInv(cfg, Start(audit, capacity), ops);
    var s := Run(cfg, Start(audit, capacity), ops);
    assert FlushOK(s, s.threads[t]);
    var e := s.accepted[i];
    assert Known(s.audit, e);
    Safety.TrackedParts(Safety.Chain(s.audit), s.audit.head, s.audit.events);
    var k :| 0 <= k < |Safety.Chain(s.audit)| && Safety.Chain(s.audit)[k].record.event.eventID == e.eventID;
  }

  /** Whatever flush thread t is in, it was called with at least the events es accepted. */
  ghost predicate CalledAfter(s: System, t: nat, es: seq<Event>) {
    && es <= s.accepted
    && (t in s.threads ==>
          match s.threads[t]
          case FlushStart(mark) => |es| <= mark
          case FlushWait(mark, _) => |es| <= mark
          case FlushReady(mark) => |es| <= mark
          case FlushDone(mark, _) => |es| <= mark
          case _ => true)
  }

  lemma NextKeepsMark(cfg: Config, s: System, op: Op, t: nat, es: seq<Event>)
    requires CalledAfter(s, t, es)
    ensures CalledAfter(Next(cfg, s, op), t, es)
  {
    hide Persist, Replay;
  }

  lemma {:induction false} RunKeepsMark(cfg: Config, s: System, ops: seq<Op>, t: nat, es: seq<Event>)
    requires CalledAfter(s, t, es)
    ensures CalledAfter(Run(cfg, s, ops), t, es)
  {
    hide Next, CalledAfter;
    if ops != [] {
      var n := |ops| - 1;
      RunKeepsMark(cfg, s, ops[..n], t, es);
      NextKeepsMark(cfg, Run(cfg, s, ops[..n]), ops[n], t, es);
    }
  }

  /** A Flush called after `before` that returns nil after `later`: every normal event accepted
      before the call is in the chain. */
  lemma FlushCoversEarlierAppends(cfg: Config, audit: Runtime, capacity: nat, before: seq<Op>, later: seq<Op>, t: nat, i: nat)
    requires Safety.Inv(cfg, audit)
    requires var s0 := Run(cfg, Start(audit, capacity), before); t !in s0.threads && i < |s0.accepted|
    requires var s := Run(cfg, Start(audit, capacity), before + [FlushCall(t)] + later);
      t in s.threads && s.threads[t].FlushDone? && s.threads[t].error == None
    ensures var s := Run(cfg, Start(audit, capacity), before + [FlushCall(t)] + later);
      exists k :: 0 <= k < |Safety.Chain(s.audit)|
        && Safety.Chain(s.audit)[k].record.event == Run(cfg, Start(audit, capacity), before).accepted[i]
  {
    hide Start, Safety.Chain, Safety.Inv, Next;
    var s0 := Run(cfg, Start(audit, capacity), before);
    var s1 := Next(cfg, s0, FlushCall(t));
    assert (before + [FlushCall(t)])[..|before|] == before;
    assert Run(cfg, Start(audit, capacity), before + [FlushCall(t)]) == s1;
    RunSplits(cfg, Start(audit, capacity), before + [FlushCall(t)], later);
    CallSetsMark(cfg, s0, t);
    RunKeepsMark(cfg, s1, later, t, s0.accepted);
    FlushMeansPersisted(cfg, audit, capacity, before + [FlushCall(t)] + later, t, i);
  }

  lemma CallSetsMark(cfg: Config, s: System, t: nat)
    requires t !in s.threads
    ensures CalledAfter(Next(cfg, s, FlushCall(t)), t, s.accepted)
  {
  }

  lemma {:induction false} RunSplits(cfg: Config, s: System, ops1: seq<Op>, ops2: seq<Op>)
    ensures Run(cfg, s, ops1 + ops2) == Run(cfg, Run(cfg, s, ops1), ops2)
  {
    hide Next;
    if ops2 == [] {
      assert ops1 + ops2 == ops1;
    } else {
      var n := |ops2| - 1;
      RunSplits(cfg, s, ops1, ops2[..n]);
      assert (ops1 + ops2)[..|ops1| + n] == ops1 + ops2[..n];
    }
  }
}
