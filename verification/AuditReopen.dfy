/** A runtime opened over a journal and a spool that still owes entries: it knows only the journal until
    replays have caught up, and then it is as good as the runtime that wrote them. */
module AuditReopen {
  import opened AuditChain
  import opened AuditRuntime
  import opened AuditSafety

  /** The runtime as it would be had it caught up with its own spool. */
  ghost function Caught(cfg: Config, st: Runtime): Runtime {
    st.(head := HeadOf(Chain(st)), events := Learned(Chain(st)),
        spooling := cfg.hasSpool && (cfg.journalDurable ==> cfg.spoolDurable))
  }

  /** Journal and spool make up a good chain, of which the runtime has learned the journal. */
  ghost predicate Behind(cfg: Config, st: Runtime) {
    && Inv(cfg, Caught(cfg, st))
    && st.head == HeadOf(st.journal.commits) && st.events == Learned(st.journal.commits)
  }

  /** What a good runtime left behind is opened behind. */
  lemma OpenedIsBehind(cfg: Config, st: Runtime)
    requires Inv(cfg, st)
    ensures Behind(cfg, Open(cfg, st.journal, st.spool))
  {
    hide Replicated, Fingerprinted, TailOf, Learned;
    TrackedParts(Chain(st), st.head, st.events);
    LearnedKnows(Chain(st));
    hide Verified, UniqueIDs, Knows;
  }

  lemma LearnsOneMore(cs: seq<Commit>, c: Commit)
    ensures HeadOf(cs + [c]) == c.record && Learned(cs + [c]) == Learned(cs)[c.record.event.eventID := c.record]
  {
    assert (cs + [c])[..|cs|] == cs;
  }

  /** How far the journal goes, and how far a runtime that is behind has got. */
  lemma BehindSequence(cfg: Config, st: Runtime)
    requires Behind(cfg, st)
    ensures st.head.sequence == |st.journal.commits|
  {
    hide Replicated, Fingerprinted, Modes, Learned;
    TrackedParts(Chain(st), HeadOf(Chain(st)), Learned(Chain(st)));
    if st.journal.commits != [] {
      var n := |st.journal.commits| - 1;
      assert Linked(Chain(st), n) && Chain(st)[n] == st.journal.commits[n];
    }
  }

  /** The entry after a replayed part goes in, and the runtime learns of it exactly if it was owed. */
  lemma CatchesUp(cfg: Config, st: Runtime, i: nat)
    requires Behind(cfg, st) && i < |st.spool.items| && i <= Replayed(st.spool.items, |st.journal.commits|)
    ensures var c := st.spool.items[i]; ValidCommit(c) && (Append(st.journal, c).Err? ==> Append(st.journal, c).error == OutboxConflict)
    ensures Append(st.journal, st.spool.items[i]).Ok? ==>
      var c := st.spool.items[i]; var st1 := st.(journal := Append(st.journal, c).value);
      var st2 := if c.record.sequence > st1.head.sequence then Advance(st1, c.record) else st1;
      && Behind(cfg, st2) && Chain(st2) == Chain(st) && i + 1 <= Replayed(st.spool.items, |st2.journal.commits|)
  {
    hide Tracked, Replicated, Fingerprinted, Modes, ValidCommit, TailOf, ChainOf, Append, Learned, HeadOf;
    BehindSequence(cfg, st);
    var full := Caught(cfg, st);
    OfferEntry(cfg, full, i);
    if i < Replayed(st.spool.items, |st.journal.commits|) {
      CopyIsIdempotent(cfg, full, i);
    } else {
      OwedIsTaken(cfg, full, i);
      LearnsOneMore(st.journal.commits, st.spool.items[i]);
      TrackedParts(Chain(st), HeadOf(Chain(st)), Learned(Chain(st)));
      hide Verified, UniqueIDs, Knows;
      TailEntry(st.journal.commits, st.spool.items, i);
    }
  }

  /** A replay of a runtime that is behind, stopped anywhere, leaves it behind the same chain; one that
      gets through leaves it good. */
  lemma {:induction false} ReplayCatchesUp(cfg: Config, st: Runtime, faults: seq<Fault>, i: nat)
    requires Behind(cfg, st) && cfg.hasSpool && i <= |st.spool.items|
    requires i <= Replayed(st.spool.items, |st.journal.commits|)
    ensures var (st', r) := ReplayFrom(cfg, st, st.spool.items, faults, i);
      && Behind(cfg, st') && Chain(st') == Chain(st) && st'.spool == st.spool
      && (r.Pass? ==> Inv(cfg, st') && st'.journal.commits == Chain(st) && st'.spooling == !cfg.journalDurable)
    decreases |st.spool.items| - i
  {
    hide Behind, Inv, Append, ValidCommit, ChainOf, Replayed;
    if i == |st.spool.items| {
      CaughtUp(cfg, st);
    } else {
      CatchesUp(cfg, st, i);
      var c := st.spool.items[i];
      if Append(st.journal, c).Ok? && FaultAt(faults, 2 * i) == Works {
        var st1 := st.(journal := Append(st.journal, c).value);
        var st2 := if c.record.sequence > st1.head.sequence then Advance(st1, c.record) else st1;
        ReplayCatchesUp(cfg, st2, faults, i + 1);
      }
    }
  }

  lemma CaughtUp(cfg: Config, st: Runtime)
    requires Behind(cfg, st) && cfg.hasSpool && |st.spool.items| <= Replayed(st.spool.items, |st.journal.commits|)
    ensures var st' := st.(spooling := !cfg.journalDurable);
      Behind(cfg, st') && Inv(cfg, st') && Chain(st') == Chain(st) == st.journal.commits
  {
    hide Inv, Learned, HeadOf, Replayed;
    ReplayDone(cfg, Caught(cfg, st));
    assert Chain(Caught(cfg, st)) == Chain(st);
    assert Caught(cfg, st).(spooling := !cfg.journalDurable) == st.(spooling := !cfg.journalDurable);
    assert Caught(cfg, st.(spooling := !cfg.journalDurable)) == Caught(cfg, st);
  }

  /** Any number of replays, failed or not, one after the other. */
  ghost function Replays(cfg: Config, st: Runtime, tries: seq<seq<Fault>>): Runtime {
    if tries == [] then st else Replay(cfg, Replays(cfg, st, tries[..|tries| - 1]), tries[|tries| - 1]).0
  }

  lemma {:induction false} TriesStayBehind(cfg: Config, st: Runtime, tries: seq<seq<Fault>>)
    requires Behind(cfg, st)
    ensures Behind(cfg, Replays(cfg, st, tries)) && Chain(Replays(cfg, st, tries)) == Chain(st)
  {
    hide Behind, ReplayFrom, ChainOf;
    if tries != [] {
      TriesStayBehind(cfg, st, tries[..|tries| - 1]);
      var before := Replays(cfg, st, tries[..|tries| - 1]);
      if cfg.hasSpool { ReplayCatchesUp(cfg, before, tries[|tries| - 1], 0); }
    }
  }

  /** A new runtime over what a good one left, owed entries and all: after any failed replays, the first
      that succeeds gives a good runtime with the old chain, all of it in the journal. */
  lemma ReopenedIsGood(cfg: Config, prior: Runtime, tries: seq<seq<Fault>>, faults: seq<Fault>)
    requires Inv(cfg, prior) && cfg.hasSpool
    requires Replay(cfg, Replays(cfg, Open(cfg, prior.journal, prior.spool), tries), faults).1.Pass?
    ensures var st := Replay(cfg, Replays(cfg, Open(cfg, prior.journal, prior.spool), tries), faults).0;
      Inv(cfg, st) && Chain(st) == Chain(prior) == st.journal.commits && st.spooling == !cfg.journalDurable
  {
    hide Inv, Behind, ReplayFrom, ChainOf, Replays;
    var reopened := Open(cfg, prior.journal, prior.spool);
    OpenedIsBehind(cfg, prior);
    TriesStayBehind(cfg, reopened, tries);
    ReplayCatchesUp(cfg, Replays(cfg, reopened, tries), faults, 0);
    assert Chain(reopened) == Chain(prior);
  }

  /** From there on every run keeps the chain, across the restart. */
  lemma RestartKeepsChain(cfg: Config, prior: Runtime, tries: seq<seq<Fault>>, faults: seq<Fault>, ops: seq<Op>)
    requires Inv(cfg, prior) && cfg.hasSpool
    requires Replay(cfg, Replays(cfg, Open(cfg, prior.journal, prior.spool), tries), faults).1.Pass?
    ensures var st := After(cfg, Replay(cfg, Replays(cfg, Open(cfg, prior.journal, prior.spool), tries), faults).0, ops);
      Inv(cfg, st) && Chain(prior) <= Chain(st)
  {
    hide Inv, Chain, Replay, Replays, After;
    ReopenedIsGood(cfg, prior, tries, faults);
    RunKeepsChain(cfg, Replay(cfg, Replays(cfg, Open(cfg, prior.journal, prior.spool), tries), faults).0, ops);
  }
}
