/** The queue also does what it is for: it takes events while there is room, the worker gets through them,
    and then a Flush comes back with the first error. */
module AuditQueueProgress {
  import opened Wrappers
  import opened AuditChain
  import opened AuditRuntime
  import opened AuditQueue
  import Safety = AuditSafety

  /** A normal append is taken exactly when the runtime is open, lets it in and has room; then it is last in
      the queue and pending, and otherwise nothing is pending that was not. */
  lemma AppendIsExact(cfg: Config, s: System, event: Event, admit: bool)
    ensures var s' := Next(cfg, s, AppendNormal(event, admit));
      if !s.closed && admit && |s.queue| < s.capacity then
        s'.accepted == s.accepted + [event] && s'.queue == s.queue + [event] && s'.pending == s.pending + 1
      else s'.accepted == s.accepted && s'.queue == s.queue && s'.pending == s.pending
    ensures Next(cfg, s, AppendNormal(event, admit)).audit == s.audit
  {
  }

  /** A critical append has its event persisted once it holds; its place in line is taken and given back. */
  lemma CriticalIsPersisted(cfg: Config, s: System, t: nat, now: nat, faults: seq<Fault>)
    requires t in s.threads && s.threads[t].CriticalHolds?
    ensures var s1 := Next(cfg, s, CriticalPersist(t, now, faults)); var s2 := Next(cfg, s1, CriticalLeave(t));
      && s1.audit == Persist(cfg, s.audit, s.threads[t].event, now, faults).0 && s1.pending == s.pending
      && s2.audit == s1.audit && s2.pending == s.pending - 1 && t !in s2.threads
  {
    hide Persist;
  }

  /** A critical append waits for the idle channel, and enters unless the runtime was closed meanwhile. */
  lemma CriticalEnters(cfg: Config, s: System, t: nat, event: Event)
    requires t !in s.threads && s.idle in s.closedChannels
    ensures var s1 := Next(cfg, s, CriticalCall(t, event)); var s2 := Next(cfg, s1, Awake(t));
      var s3 := Next(cfg, s2, CriticalEnter(t));
      && t in s2.threads && s2.threads[t] == CriticalReady(event)
      && (if s.closed then t !in s3.threads && s3.pending == s.pending
          else t in s3.threads && s3.threads[t] == CriticalHolds(event) && s3.pending == s.pending + 1)
  {
  }

  /** Closing stops appends at once, and a second time changes nothing. */
  lemma CloseIsFinal(cfg: Config, s: System, t: nat)
    requires t !in s.threads
    ensures var s' := Next(cfg, s, CloseCall(t));
      if s.closed then s' == s
      else
        && s'.closed && s'.queueClosed && s'.queue == s.queue && s'.accepted == s.accepted
        && s'.threads == s.threads[t := CloseWait]
  {
  }

  // ----- the worker gets through the queue

  ghost function WorkLeft(s: System): nat {
    4 * |s.queue| + match s.worker
                    case Idle => 0
                    case Busy(_) => 3
                    case Wrote(_, _) => 2
                    case Recorded(_) => 1
                    case Exited => 0
  }

  /** The worker's next step. */
  ghost function WorkerOp(s: System, now: nat): AuditQueue.Op {
    match s.worker
    case Busy(_) => WorkerPersist(now, [])
    case Wrote(_, _) => WorkerRecord
    case Recorded(_) => WorkerEnd
    case _ => WorkerTake
  }

  lemma WorkerSteps(cfg: Config, s: System, now: nat)
    requires WorkLeft(s) > 0 && (s.worker == Exited ==> s.queue == [])
    ensures var s' := Next(cfg, s, WorkerOp(s, now));
      && WorkLeft(s') < WorkLeft(s) && s'.accepted == s.accepted && s'.threads == s.threads
      && (s'.worker == Exited ==> s'.queue == []) && s'.closed == s.closed
  {
    hide Persist;
  }

  lemma RunOneMore(cfg: Config, s: System, ops: seq<AuditQueue.Op>, op: AuditQueue.Op)
    ensures Run(cfg, s, ops + [op]) == Next(cfg, Run(cfg, s, ops), op)
  {
    hide Next;
    assert (ops + [op])[..|ops|] == ops;
  }

  /** However much is queued, the worker can finish it. */
  lemma {:induction false} WorkerDrains(cfg: Config, s: System, now: nat) returns (ops: seq<AuditQueue.Op>)
    requires Inv(cfg, s)
    ensures var s' := Run(cfg, s, ops);
      Inv(cfg, s') && WorkLeft(s') == 0 && s'.accepted == s.accepted && s'.threads == s.threads && s'.closed == s.closed
    decreases WorkLeft(s)
  {
    hide Inv, Next, Run, WorkLeft;
    ops := [];
    RunNothing(cfg, s);
    if WorkLeft(s) > 0 {
      ExitedIsEmpty(cfg, s);
      WorkerSteps(cfg, s, now);
      NextKeepsInv(cfg, s, WorkerOp(s, now));
      var rest := WorkerDrains(cfg, Next(cfg, s, WorkerOp(s, now)), now);
      ops := [WorkerOp(s, now)] + rest;
      RunSplits(cfg, s, [WorkerOp(s, now)], rest);
      RunOneMore(cfg, s, [], WorkerOp(s, now));
      assert [] + [WorkerOp(s, now)] == [WorkerOp(s, now)];
    }
  }

  lemma RunNothing(cfg: Config, s: System)
    ensures Run(cfg, s, []) == s
  {
  }

  lemma ExitedIsEmpty(cfg: Config, s: System)
    requires Inv(cfg, s)
    ensures s.worker == Exited ==> s.queue == []
  {
    hide Safety.Inv, Known, Accounted, FlushesOK, ChannelsOK, Counted;
  }

  /** When the worker is done and no critical append is under way, everything accepted is finished and the
      idle channel is closed. */
  lemma DoneIsIdle(cfg: Config, s: System)
    requires Inv(cfg, s) && WorkLeft(s) == 0 && Holders(s) == {}
    ensures s.pending == 0 && s.idle in s.closedChannels && s.finished == |s.accepted|
  {
    hide Safety.Inv, Known, Accounted, FlushesOK;
    assert InHand(s.worker) == [] && s.queue == [];
  }

  lemma FlushedSteps(cfg: Config, s: System, t: nat)
    requires t in s.threads && s.threads[t].FlushStart? && s.idle in s.closedChannels
    ensures var s1 := Next(cfg, s, FlushGrab(t)); var s2 := Next(cfg, s1, Awake(t));
      Next(cfg, s2, FlushFinish(t, false)) == s.(threads := s.threads[t := FlushDone(s.threads[t].mark, s.firstErr)])
  {
    var s1 := Next(cfg, s, FlushGrab(t));
    assert s1 == s.(threads := s.threads[t := FlushWait(s.threads[t].mark, s.idle)]);
    var s2 := Next(cfg, s1, Awake(t));
    assert s2 == s.(threads := s.threads[t := FlushReady(s.threads[t].mark)]);
  }

  lemma FlushSteps(cfg: Config, s: System, t: nat)
    requires t !in s.threads && s.idle in s.closedChannels
    ensures var s1 := Next(cfg, s, FlushCall(t)); var s2 := Next(cfg, s1, FlushGrab(t)); var s3 := Next(cfg, s2, Awake(t));
      var s4 := Next(cfg, s3, FlushFinish(t, false));
      && t in s4.threads && s4.threads[t] == FlushDone(|s.accepted|, s.firstErr)
      && s4 == s.(threads := s4.threads)
  {
    var s1 := s.(threads := s.threads[t := FlushStart(|s.accepted|)]);
    assert Next(cfg, s, FlushCall(t)) == s1;
    hide Next;
    FlushedSteps(cfg, s1, t);
  }

  /** With no other call under way a Flush comes back: for everything accepted, with the first error there
      was. */
  lemma FlushCompletes(cfg: Config, s: System, t: nat, now: nat) returns (ops: seq<AuditQueue.Op>)
    requires Inv(cfg, s) && s.threads == map[]
    ensures var s' := Run(cfg, s, ops);
      t in s'.threads && s'.threads[t] == FlushDone(|s.accepted|, s'.firstErr) && s'.finished == |s.accepted|
  {
    hide Inv, Next, Run, WorkLeft;
    var work := WorkerDrains(cfg, s, now);
    var s0 := Run(cfg, s, work);
    assert Holders(s0) == {};
    DoneIsIdle(cfg, s0);
    FlushSteps(cfg, s0, t);
    ops := work + [FlushCall(t)] + [FlushGrab(t)] + [Awake(t)] + [FlushFinish(t, false)];
    RunOneMore(cfg, s, work, FlushCall(t));
    RunOneMore(cfg, s, work + [FlushCall(t)], FlushGrab(t));
    RunOneMore(cfg, s, work + [FlushCall(t)] + [FlushGrab(t)], Awake(t));
    RunOneMore(cfg, s, work + [FlushCall(t)] + [FlushGrab(t)] + [Awake(t)], FlushFinish(t, false));
  }

  lemma GoneSteps(cfg: Config, s: System, t: nat)
    requires t in s.threads && s.threads[t] == CloseWait && WorkLeft(s) == 0
    requires s.worker != Exited ==> s.queueClosed
    ensures Next(cfg, Next(cfg, s, WorkerExit), CloseAwake(t))
         == s.(worker := Exited, threads := s.threads[t := FlushStart(|s.accepted|)])
  {
    assert s.worker == Idle || s.worker == Exited;
    assert Next(cfg, s, WorkerExit) == s.(worker := Exited);
  }

  lemma WorkerOnly(cfg: Config, s: System, now: nat) returns (ops: seq<AuditQueue.Op>)
    requires Inv(cfg, s) && s.closed
    ensures var s' := Run(cfg, s, ops);
      && Inv(cfg, s') && WorkLeft(s') == 0 && s'.accepted == s.accepted && s'.threads == s.threads
      && s'.closed && (s'.worker != Exited ==> s'.queueClosed)
  {
    hide Run, WorkLeft;
    ops := WorkerDrains(cfg, s, now);
    ClosedQueue(cfg, Run(cfg, s, ops));
    hide Inv;
  }

  lemma ClosedQueue(cfg: Config, s: System)
    requires Inv(cfg, s)
    ensures s.closed ==> s.queueClosed
  {
    hide Safety.Inv, Known, Accounted, FlushesOK, Counted;
  }

  /** With no other call under way a Close comes back too: the worker has gone, after everything accepted was
      finished, and the caller has the first error there was. */
  lemma CloseCompletes(cfg: Config, s: System, t: nat, now: nat) returns (ops: seq<AuditQueue.Op>)
    requires Inv(cfg, s) && s.threads == map[] && !s.closed
    ensures var s' := Run(cfg, s, ops);
      && s'.closed && s'.worker == Exited && s'.accepted == s.accepted && s'.finished == |s.accepted|
      && t in s'.threads && s'.threads[t] == FlushDone(|s.accepted|, s'.firstErr)
  {
    hide Inv, Next, Run, WorkLeft;
    CloseIsFinal(cfg, s, t);
    NextKeepsInv(cfg, s, CloseCall(t));
    var s1 := Next(cfg, s, CloseCall(t));
    var work := WorkerOnly(cfg, s1, now);
    var s2 := Run(cfg, s1, work);
    assert Holders(s2) == {};
    DoneIsIdle(cfg, s2);
    GoneSteps(cfg, s2, t);
    FlushedSteps(cfg, Next(cfg, Next(cfg, s2, WorkerExit), CloseAwake(t)), t);
    var first := [CloseCall(t)] + work;
    RunNothing(cfg, s);
    RunOneMore(cfg, s, [], CloseCall(t));
    assert [] + [CloseCall(t)] == [CloseCall(t)];
    RunSplits(cfg, s, [CloseCall(t)], work);
    ops := first + [WorkerExit] + [CloseAwake(t)] + [FlushGrab(t)] + [Awake(t)] + [FlushFinish(t, false)];
    RunOneMore(cfg, s, first, WorkerExit);
    RunOneMore(cfg, s, first + [WorkerExit], CloseAwake(t));
    RunOneMore(cfg, s, first + [WorkerExit] + [CloseAwake(t)], FlushGrab(t));
    RunOneMore(cfg, s, first + [WorkerExit] + [CloseAwake(t)] + [FlushGrab(t)], Awake(t));
    RunOneMore(cfg, s, first + [WorkerExit] + [CloseAwake(t)] + [FlushGrab(t)] + [Awake(t)], FlushFinish(t, false));
  }

  /** Every wait for the idle channel ends: when the channel is closed, or when its caller gives up, and then it
      has changed nothing. */
  lemma WaitsEnd(cfg: Config, s: System, t: nat)
    requires Awaits(s, t)
    ensures Next(cfg, s, Abandon(t)) == s.(threads := s.threads - {t})
    ensures s.threads[t].channel in s.closedChannels ==> t in Next(cfg, s, Awake(t)).threads && !Awaits(Next(cfg, s, Awake(t)), t)
  {
  }

  /** The worker persists what it took, and the first failure is the one that is kept. */
  lemma WorkerIsExact(cfg: Config, s: System, now: nat, faults: seq<Fault>)
    requires s.worker.Busy?
    ensures var (audit, r) := Persist(cfg, s.audit, s.worker.event, now, faults);
      var s1 := Next(cfg, s, WorkerPersist(now, faults)); var s2 := Next(cfg, s1, WorkerRecord);
      && s1.audit == audit && s2.audit == audit
      && s2.firstErr == (if s.firstErr.Some? || r.Ok? then s.firstErr else Some(r.error))
  {
    hide Persist, Next;
    WorkerPersistIs(cfg, s, now, faults);
    var s1 := Next(cfg, s, WorkerPersist(now, faults));
    RecordIs(cfg, s1);
    var (audit, r) := Persist(cfg, s.audit, s.worker.event, now, faults);
    assert s1.audit == audit;
    assert s1.worker == Wrote(s.worker.event, if r.Err? then Some(r.error) else None);
    assert s1.firstErr == s.firstErr;
  }

  lemma RecordIs(cfg: Config, s: System)
    requires s.worker.Wrote?
    ensures Next(cfg, s, WorkerRecord)
         == s.(worker := Recorded(s.worker.event), firstErr := if s.firstErr.None? then s.worker.failed else s.firstErr)
  {
  }
}
