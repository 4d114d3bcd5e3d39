/** Every record's deliveries are queued: one per target, under its own ID, and none is ever lost. */
module AuditOutbox {
  import opened Wrappers
  import opened AuditChain
  import opened AuditRuntime
  import opened AuditSafety

  /** The commit has, for each configured target in turn, one delivery that names its record and event. */
  ghost predicate Announces(cfg: Config, c: Commit) {
    && |c.outbox| == |cfg.targets|
    && forall i | 0 <= i < |c.outbox| ::
         var d := c.outbox[i];
         && d.target == cfg.targets[i] && d.deliveryID == DeliveryID(cfg.stream, c.record.sequence, cfg.targets[i])
         && d.streamID == cfg.stream && d.sequence == c.record.sequence && d.eventID == c.record.event.eventID
         && d.recordHash == c.record.hash && d.deliveredAt == 0
  }

  lemma MadeAnnounces(cfg: Config, head: Record, event: Event, now: nat)
    requires MakeCommit(cfg, head, event, now).Ok?
    ensures Announces(cfg, MakeCommit(cfg, head, event, now).value)
    ensures forall d | d in MakeCommit(cfg, head, event, now).value.outbox :: d.createdAt == now
  {
    hide VerifiesCheckpoint, MakeCheckpoint;
  }

  ghost predicate DistinctIDs(ds: seq<Delivery>) {
    forall i, j | 0 <= i < j < |ds| :: ds[i].deliveryID != ds[j].deliveryID
  }

  lemma AnnouncedOnce(cfg: Config, c: Commit)
    requires Announces(cfg, c) && ValidCommit(c)
    ensures DistinctIDs(c.outbox)
  {
    hide ValidRecord, CheckpointShape, ValidDelivery;
  }

  ghost predicate Holds(outbox: map<DeliveryID, Delivery>, ds: seq<Delivery>) {
    forall i | 0 <= i < |ds| :: ds[i].deliveryID in outbox && outbox[ds[i].deliveryID] == ds[i]
  }

  lemma {:induction false} EnqueueHolds(outbox: map<DeliveryID, Delivery>, ds: seq<Delivery>)
    requires DistinctIDs(ds) && !OutboxClash(outbox, ds)
    ensures Holds(Enqueue(outbox, ds), ds)
    ensures forall id | id in outbox :: id in Enqueue(outbox, ds) && Enqueue(outbox, ds)[id] == outbox[id]
    ensures forall id | id in Enqueue(outbox, ds) :: id in outbox || exists i :: 0 <= i < |ds| && ds[i].deliveryID == id
  {
    if ds != [] {
      var front, d := ds[..|ds| - 1], ds[|ds| - 1];
      EnqueueHolds(outbox, front);
      hide Enqueue;
      assert forall id | id in Enqueue(outbox, ds) :: id in Enqueue(outbox, front) || id == d.deliveryID by { EnqueueLast(outbox, ds); }
      EnqueueLast(outbox, ds);
      assert forall i | 0 <= i < |front| :: front[i] == ds[i];
    }
  }

  lemma EnqueueLast(outbox: map<DeliveryID, Delivery>, ds: seq<Delivery>)
    requires ds != []
    ensures Enqueue(outbox, ds) == Enqueue(outbox, ds[..|ds| - 1])[ds[|ds| - 1].deliveryID := ds[|ds| - 1]]
  {
  }

  /** An accepted new commit leaves each of its deliveries in the outbox under its ID, every older delivery
      as it was, and nothing else. */
  lemma AppendQueues(j: Journal, c: Commit)
    requires Append(j, c).Ok? && Append(j, c).value != j && DistinctIDs(c.outbox)
    ensures var j' := Append(j, c).value;
      && Holds(j'.outbox, c.outbox)
      && (forall id | id in j.outbox :: id in j'.outbox && j'.outbox[id] == j.outbox[id])
      && (forall id | id in j'.outbox :: id in j.outbox || exists i :: 0 <= i < |c.outbox| && c.outbox[i].deliveryID == id)
  {
    hide ValidCommit, HasEvent, Enqueue, DistinctIDs;
    EnqueueHolds(j.outbox, c.outbox);
    hide OutboxClash;
  }

  // ----- over runs

  /** Journal and spool hold announcing commits, and the outbox what the journal's commits announce. */
  ghost predicate Queued(cfg: Config, st: Runtime) {
    && (forall i | 0 <= i < |st.journal.commits| ::
          Announces(cfg, st.journal.commits[i]) && Holds(st.journal.outbox, st.journal.commits[i].outbox))
    && (forall i | 0 <= i < |st.spool.items| :: Announces(cfg, st.spool.items[i]))
  }

  lemma AppendKeepsQueued(cfg: Config, st: Runtime, c: Commit)
    requires Queued(cfg, st) && Announces(cfg, c) && Append(st.journal, c).Ok?
    ensures Queued(cfg, st.(journal := Append(st.journal, c).value))
  {
    var j, j' := st.journal, Append(st.journal, c).value;
    if j' != j {
      AcceptedIsValid(j, c);
      hide Append, Announces, Holds, ValidCommit;
      AnnouncedOnce(cfg, c);
      AppendQueues(j, c);
      assert j'.commits == j.commits + [c];
      forall i | 0 <= i < |j'.commits|
        ensures Announces(cfg, j'.commits[i]) && Holds(j'.outbox, j'.commits[i].outbox)
      {
        if i < |j.commits| { HoldsMore(j.outbox, j'.outbox, j.commits[i].outbox); }
      }
    }
  }

  lemma AcceptedIsValid(j: Journal, c: Commit)
    requires Append(j, c).Ok?
    ensures ValidCommit(c)
  {
    hide ValidateCommit, HasEvent, OutboxClash, Enqueue;
  }

  lemma HoldsMore(outbox: map<DeliveryID, Delivery>, more: map<DeliveryID, Delivery>, ds: seq<Delivery>)
    requires Holds(outbox, ds) && forall id | id in outbox :: id in more && more[id] == outbox[id]
    ensures Holds(more, ds)
  {
  }

  lemma PutKeepsQueued(cfg: Config, st: Runtime, c: Commit)
    requires Queued(cfg, st) && Announces(cfg, c) && Put(st.spool, c).Ok?
    ensures Queued(cfg, st.(spool := Put(st.spool, c).value))
  {
    hide Announces, Holds, ValidCommit;
  }

  lemma {:induction false} AttemptKeepsQueued(cfg: Config, st: Runtime, event: Event, now: nat, faults: seq<Fault>, k: nat)
    requires Queued(cfg, st) && k <= 8
    ensures Queued(cfg, Attempt(cfg, st, event, now, faults, k).0)
    decreases 8 - k
  {
    hide MakeCommit, Append, Put, Announces, Holds;
    if k < 8 && MakeCommit(cfg, st.head, event, now).Ok? {
      var c := MakeCommit(cfg, st.head, event, now).value;
      MadeAnnounces(cfg, st.head, event, now);
      if Append(st.journal, c).Ok? { AppendKeepsQueued(cfg, st, c); }
      if Put(st.spool, c).Ok? { PutKeepsQueued(cfg, st, c); }
      AttemptKeepsQueued(cfg, st.(head := HeadOf(st.journal.commits)), event, now, faults, k + 1);
      AttemptKeepsQueued(cfg, st.(spooling := true), event, now, faults, k + 1);
    }
  }

  lemma {:induction false} ReplayKeepsQueued(cfg: Config, st: Runtime, faults: seq<Fault>, i: nat)
    requires Queued(cfg, st) && i <= |st.spool.items|
    ensures Queued(cfg, ReplayFrom(cfg, st, st.spool.items, faults, i).0)
    decreases |st.spool.items| - i
  {
    hide Append, Announces, Holds, ValidCommit;
    if i < |st.spool.items| {
      var c := st.spool.items[i];
      var appended := JournalAppend(st.journal, c, FaultAt(faults, 2 * i));
      if Append(st.journal, c).Ok? { AppendKeepsQueued(cfg, st, c); }
      var st1 := if appended.Ok? then st.(journal := appended.value) else st;
      var st2 := if c.record.sequence > st1.head.sequence then Advance(st1, c.record) else st1;
      ReplayKeepsQueued(cfg, st2, faults, i + 1);
    }
  }

  lemma StepKeepsQueued(cfg: Config, st: Runtime, op: Op)
    requires Queued(cfg, st)
    ensures Queued(cfg, Step(cfg, st, op))
  {
    hide Queued, Attempt, ReplayFrom;
    match op
    case PersistOp(event, now, faults) => AttemptKeepsQueued(cfg, st, event, now, faults, 0);
    case ReplayOp(faults) => ReplayKeepsQueued(cfg, st, faults, 0);
  }

  /** Over every run from an empty stream, under any faults, each commit in the journal announces itself once
      to every target, and each of those deliveries is in the outbox under its ID. */
  lemma {:induction false} EveryRecordIsAnnounced(cfg: Config, ops: seq<Op>)
    ensures Queued(cfg, After(cfg, Open(cfg, Journal([], map[]), Spool([], map[])), ops))
  {
    hide Queued, Step;
    var start := Open(cfg, Journal([], map[]), Spool([], map[]));
    if ops == [] {
      NothingQueued(cfg);
    } else {
      EveryRecordIsAnnounced(cfg, ops[..|ops| - 1]);
      StepKeepsQueued(cfg, After(cfg, start, ops[..|ops| - 1]), ops[|ops| - 1]);
    }
  }

  lemma NothingQueued(cfg: Config)
    ensures Queued(cfg, Open(cfg, Journal([], map[]), Spool([], map[])))
  {
  }
}
