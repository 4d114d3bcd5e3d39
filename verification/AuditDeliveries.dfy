/** A runtime's deliveries carry the sequence of their own record, so they never clash in the outbox. */
module AuditDeliveries {
  import opened Wrappers
  import opened AuditChain
  import opened AuditRuntime
  import opened AuditSafety

  /** The commit's deliveries are named after its own record. */
  ghost predicate OwnDeliveries(c: Commit) {
    forall j | 0 <= j < |c.outbox| ::
      c.outbox[j].deliveryID.DeliveryID? && c.outbox[j].deliveryID.sequence == c.record.sequence
  }

  /** Every delivery queued so far is named after a record up to number n. */
  ghost predicate OutboxBelow(outbox: map<DeliveryID, Delivery>, n: nat) {
    forall d | d in outbox :: d.DeliveryID? && d.sequence <= n
  }

  ghost predicate Delivered(st: Runtime) {
    && OutboxBelow(st.journal.outbox, |st.journal.commits|)
    && forall i | 0 <= i < |st.spool.items| :: OwnDeliveries(st.spool.items[i])
  }

  lemma {:induction false} EnqueueBelow(outbox: map<DeliveryID, Delivery>, ds: seq<Delivery>, n: nat)
    requires OutboxBelow(outbox, n)
    requires forall j | 0 <= j < |ds| :: ds[j].deliveryID.DeliveryID? && ds[j].deliveryID.sequence <= n
    ensures OutboxBelow(Enqueue(outbox, ds), n)
  {
    if ds != [] { EnqueueBelow(outbox, ds[..|ds| - 1], n); }
  }

  lemma NextDoesNotClash(j: Journal, c: Commit)
    requires OutboxBelow(j.outbox, |j.commits|) && OwnDeliveries(c) && c.record.sequence > |j.commits|
    ensures !OutboxClash(j.outbox, c.outbox)
  {
  }

  /** The journal never refuses such a commit for its deliveries, and stays as it should. */
  lemma AppendDelivers(j: Journal, c: Commit)
    requires OutboxBelow(j.outbox, |j.commits|) && OwnDeliveries(c)
    ensures Append(j, c) != Err(OutboxConflict)
    ensures Append(j, c).Ok? ==> OutboxBelow(Append(j, c).value.outbox, |Append(j, c).value.commits|)
  {
    assert ValidateCommit(c) != Fail(OutboxConflict);
    hide ValidCommit, ValidateCommit, HasEvent;
    if c.record.sequence > |j.commits| { NextDoesNotClash(j, c); }
    hide OutboxClash;
    if c.record.sequence == |j.commits| + 1 { EnqueueBelow(j.outbox, c.outbox, |j.commits| + 1); }
    hide Enqueue;
  }

  lemma MadeDeliveries(cfg: Config, head: Record, event: Event, now: nat)
    requires MakeCommit(cfg, head, event, now).Ok?
    ensures OwnDeliveries(MakeCommit(cfg, head, event, now).value)
  {
    hide VerifiesCheckpoint, MakeCheckpoint;
  }

  lemma {:induction false} AttemptDelivers(cfg: Config, st: Runtime, event: Event, now: nat, faults: seq<Fault>, k: nat)
    requires Delivered(st) && k <= 8
    ensures Delivered(Attempt(cfg, st, event, now, faults, k).0)
    decreases 8 - k
  {
    hide MakeCommit, Append, OwnDeliveries, OutboxBelow, ValidCommit;
    if k < 8 && MakeCommit(cfg, st.head, event, now).Ok? {
      var c := MakeCommit(cfg, st.head, event, now).value;
      MadeDeliveries(cfg, st.head, event, now);
      AppendDelivers(st.journal, c);
      AttemptDelivers(cfg, st.(head := HeadOf(st.journal.commits)), event, now, faults, k + 1);
      AttemptDelivers(cfg, st.(spooling := true), event, now, faults, k + 1);
    }
  }

  lemma {:induction false} ReplayDelivers(cfg: Config, st: Runtime, faults: seq<Fault>, i: nat)
    requires Delivered(st) && i <= |st.spool.items|
    ensures var st' := ReplayFrom(cfg, st, st.spool.items, faults, i).0; Delivered(st') && st'.spool == st.spool
    decreases |st.spool.items| - i
  {
    hide Append, OwnDeliveries, OutboxBelow, ValidCommit;
    if i < |st.spool.items| {
      var c := st.spool.items[i];
      AppendDelivers(st.journal, c);
      var appended := JournalAppend(st.journal, c, FaultAt(faults, 2 * i));
      var st1 := if appended.Ok? then st.(journal := appended.value) else st;
      var st2 := if c.record.sequence > st1.head.sequence then Advance(st1, c.record) else st1;
      ReplayDelivers(cfg, st2, faults, i + 1);
    }
  }

  lemma StepDelivers(cfg: Config, st: Runtime, op: Op)
    requires Delivered(st)
    ensures Delivered(Step(cfg, st, op))
  {
    hide Delivered, Attempt, ReplayFrom;
    match op
    case PersistOp(event, now, faults) => AttemptDelivers(cfg, st, event, now, faults, 0);
    case ReplayOp(faults) => ReplayDelivers(cfg, st, faults, 0);
  }

  /** In every run, whatever fails, deliveries stay named after their own records. */
  lemma {:induction false} RunDelivers(cfg: Config, st: Runtime, ops: seq<Op>)
    requires Delivered(st)
    ensures Delivered(After(cfg, st, ops))
  {
    hide Delivered, Step;
    if ops != [] {
      RunDelivers(cfg, st, ops[..|ops| - 1]);
      StepDelivers(cfg, After(cfg, st, ops[..|ops| - 1]), ops[|ops| - 1]);
    }
  }

  /** A chain as it should be, with deliveries that cannot clash. */
  ghost predicate Good(cfg: Config, st: Runtime) { Inv(cfg, st) && Delivered(st) }

  /** Every state a runtime reaches from an empty stream is good. */
  lemma ReachableIsGood(cfg: Config, ops: seq<Op>)
    ensures Good(cfg, After(cfg, Open(cfg, Journal([], map[]), Spool([], map[])), ops))
  {
    hide Inv, After;
    EmptyIsGood(cfg);
    RunKeepsChain(cfg, Open(cfg, Journal([], map[]), Spool([], map[])), ops);
    RunDelivers(cfg, Open(cfg, Journal([], map[]), Spool([], map[])), ops);
  }
}
