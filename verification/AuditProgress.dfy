/** The audit runtime also does what it is for: a well-formed new event is appended, through the spool
    when the journal is down, and a replay that meets no fault empties the debt. */
module AuditProgress {
  import opened Wrappers
  import opened AuditChain
  import opened AuditRuntime
  import opened AuditSafety
  import opened AuditDeliveries

  /** The commit a runtime makes of a new event, ready for journal or spool. */
  ghost predicate Appendable(cfg: Config, st: Runtime, event: Event, now: nat, c: Commit) {
    Good(cfg, st) && event.eventID !in st.events && MakeCommit(cfg, st.head, event, now) == Ok(c) && ValidCommit(c)
  }

  lemma JournalTakes(st: Runtime, event: Event, c: Commit)
    requires Tracked(st.journal.commits, st.head, st.events) && event.eventID !in st.events
    requires c.record == NextRecord(st.head, event) && ValidCommit(c) && !OutboxClash(st.journal.outbox, c.outbox)
    ensures Append(st.journal, c).Ok? && Append(st.journal, c).value.commits == st.journal.commits + [c]
  {
    TrackedGrows(st.journal.commits, st.head, st.events, event, c);
    hide ValidCommit, Verified, UniqueIDs, CheckpointShape, ValidRecord, OutboxClash;
    assert !HasEvent(st.journal.commits, event.eventID);
  }

  lemma SpoolTakes(st: Runtime, cfg: Config, event: Event, c: Commit)
    requires Inv(cfg, st) && event.eventID !in st.events && c.record == NextRecord(st.head, event) && ValidCommit(c)
    ensures Put(st.spool, c).Ok?
  {
    hide Verified, UniqueIDs, Knows, ValidCommit, Replicated, TailOf;
    FreshToSpool(st, event.eventID);
  }

  lemma NotSpoolingIsWhole(cfg: Config, st: Runtime)
    requires Inv(cfg, st) && !st.spooling
    ensures Chain(st) == st.journal.commits && Tracked(st.journal.commits, st.head, st.events)
  {
    hide Tracked, Replicated, Fingerprinted, TailOf;
  }

  lemma AppendedBy(cfg: Config, st: Runtime, event: Event, now: nat, faults: seq<Fault>)
    requires Inv(cfg, st) && event.eventID !in st.events && Persist(cfg, st, event, now, faults).1.Ok?
    ensures var (st', r) := Persist(cfg, st, event, now, faults);
      |Chain(st')| == |Chain(st)| + 1 && Chain(st) <= Chain(st') && Chain(st')[|Chain(st)|].record == r.value
  {
    hide Inv, Attempt, ChainOf;
    var c := AttemptKeepsInv(cfg, st, event, now, faults, 0);
  }

  /** Without faults a new event becomes the next record of the chain, in the journal or, while it is
      owed older entries, in the spool. */
  lemma AppendSucceeds(cfg: Config, st: Runtime, event: Event, now: nat, c: Commit)
    requires Appendable(cfg, st, event, now, c)
    requires st.spooling ==> cfg.spoolDurable || event.class_ != Critical
    ensures var (st', r) := Persist(cfg, st, event, now, []);
      && r == Ok(c.record) && |Chain(st')| == |Chain(st)| + 1 && Chain(st) <= Chain(st')
      && Chain(st')[|Chain(st)|].record == c.record
      && (if st.spooling then c in st'.spool.items else c in st'.journal.commits)
  {
    hide Tracked, MakeCommit, Replicated, Fingerprinted, TailOf, ChainOf, SignedCommit, ValidCommit, OutboxClash, OwnDeliveries,
      OutboxBelow, Put, Append, Persist;
    MadeCommit(cfg, st.head, event, now);
    MadeDeliveries(cfg, st.head, event, now);
    if st.spooling {
      SpoolTakes(st, cfg, event, c);
      SpoolStep(cfg, st, event, c);
    } else {
      NotSpoolingIsWhole(cfg, st);
      HeadIsLast(st);
      NextDoesNotClash(st.journal, c);
      JournalTakes(st, event, c);
      assert (st.journal.commits + [c])[|st.journal.commits|] == c;
    }
    FirstAttempt(cfg, st, event, now, c);
    AppendedBy(cfg, st, event, now, []);
  }

  /** Without faults the first attempt decides. */
  lemma FirstAttempt(cfg: Config, st: Runtime, event: Event, now: nat, c: Commit)
    requires MakeCommit(cfg, st.head, event, now) == Ok(c) && event.eventID !in st.events
    requires if st.spooling then Put(st.spool, c).Ok? && cfg.hasSpool && (cfg.spoolDurable || event.class_ != Critical)
             else Append(st.journal, c).Ok?
    ensures Persist(cfg, st, event, now, []) ==
      (Advance(if st.spooling then st.(spool := Put(st.spool, c).value) else st.(journal := Append(st.journal, c).value), c.record),
       Ok(c.record))
  {
    hide MakeCommit, Put, Append;
  }

  /** A journal that is down sends the event to a durable spool. */
  lemma OutageSpools(cfg: Config, st: Runtime, event: Event, now: nat, c: Commit)
    requires Appendable(cfg, st, event, now, c) && !st.spooling && cfg.hasSpool && cfg.spoolDurable
    ensures var (st', r) := Persist(cfg, st, event, now, [Down]);
      && r == Ok(c.record) && st'.spooling && c in st'.spool.items && st'.journal == st.journal
      && |Chain(st')| == |Chain(st)| + 1 && Chain(st')[|Chain(st)|].record == c.record
  {
    hide Tracked, MakeCommit, Replicated, Fingerprinted, TailOf, ChainOf, SignedCommit, ValidCommit, Delivered, Modes, Put, Append,
      Persist;
    MadeCommit(cfg, st.head, event, now);
    SpoolingIsGood(cfg, st);
    var st1 := st.(spooling := true);
    SpoolTakes(st1, cfg, event, c);
    SpoolStep(cfg, st1, event, c);
    SecondAttempt(cfg, st, event, now, c);
    AppendedBy(cfg, st, event, now, [Down]);
  }

  lemma SecondAttempt(cfg: Config, st: Runtime, event: Event, now: nat, c: Commit)
    requires MakeCommit(cfg, st.head, event, now) == Ok(c) && event.eventID !in st.events && !st.spooling
    requires cfg.hasSpool && cfg.spoolDurable && Put(st.spool, c).Ok?
    ensures Persist(cfg, st, event, now, [Down])
         == (Advance(st.(spooling := true, spool := Put(st.spool, c).value), c.record), Ok(c.record))
  {
    hide MakeCommit, Put, Append;
    var st1 := st.(spooling := true);
    assert Attempt(cfg, st1, event, now, [Down], 1) == (Advance(st1.(spool := Put(st.spool, c).value), c.record), Ok(c.record));
  }

  lemma {:induction false} ReplayFromSucceeds(cfg: Config, st: Runtime, i: nat)
    requires Good(cfg, st) && cfg.hasSpool && i <= |st.spool.items|
    requires i <= Replayed(st.spool.items, |st.journal.commits|)
    ensures ReplayFrom(cfg, st, st.spool.items, [], i).1.Pass?
    decreases |st.spool.items| - i
  {
    hide Tracked, Replicated, Fingerprinted, ValidCommit, Modes, TailOf, ChainOf, Replayed, Append, OwnDeliveries, OutboxBelow;
    if i < |st.spool.items| {
      OfferEntry(cfg, st, i);
      var c := st.spool.items[i];
      AppendDelivers(st.journal, c);
      ReplayFromSucceeds(cfg, st.(journal := Append(st.journal, c).value), i + 1);
    }
  }

  /** A replay that meets no fault succeeds and pays the whole debt. */
  lemma ReplaySucceeds(cfg: Config, st: Runtime)
    requires Good(cfg, st)
    ensures Replay(cfg, st, []).1.Pass? && Replay(cfg, st, []).0.journal.commits == Chain(st)
  {
    if cfg.hasSpool {
      hide Inv, Delivered, ReplayFrom, ChainOf;
      ReplayFromSucceeds(cfg, st, 0);
      ReplayKeepsInv(cfg, st, [], 0);
    } else {
      hide Tracked, Replicated, Fingerprinted, Delivered, TailOf;
    }
  }
}
