/** Across any run of appends, outages and partial replays the journal followed by
    the not-yet-replayed tail of the spool is one verified chain ending at the
    runtime's head. */
module AuditSafety {
  import opened Wrappers
  import opened AuditChain
  import opened AuditRuntime

  /** How many spool entries lie at or below sequence n. */
  ghost function Replayed(items: seq<Commit>, n: nat): (k: nat)
    ensures k <= |items|
    ensures forall i | 0 <= i < k :: items[i].record.sequence <= n
    ensures k < |items| ==> items[k].record.sequence > n
  {
    if items == [] || items[0].record.sequence > n then 0 else 1 + Replayed(items[1..], n)
  }

  ghost function TailOf(items: seq<Commit>, n: nat): seq<Commit> { items[Replayed(items, n)..] }

  ghost function ChainOf(commits: seq<Commit>, items: seq<Commit>): seq<Commit> {
    commits + TailOf(items, |commits|)
  }

  /** The journal and then what the spool still owes it. */
  ghost function Chain(st: Runtime): seq<Commit> { ChainOf(st.journal.commits, st.spool.items) }

  ghost function Tail(st: Runtime): seq<Commit> { TailOf(st.spool.items, |st.journal.commits|) }

  ghost predicate Knows(events: map<string, Record>, cs: seq<Commit>) {
    && (forall i | 0 <= i < |cs| ::
          && cs[i].record.event.eventID in events
          && events[cs[i].record.event.eventID] == cs[i].record)
    && (forall id | id in events :: HasEvent(cs, id))
  }

  /** The journal holds c at c's own sequence. */
  ghost predicate HeldBy(commits: seq<Commit>, c: Commit) {
    0 < c.record.sequence <= |commits| && commits[c.record.sequence - 1] == c
  }

  /** Spool entries below the journal's end are the journal's own commits. */
  ghost predicate Replicated(commits: seq<Commit>, items: seq<Commit>) {
    forall i | 0 <= i < Replayed(items, |commits|) :: HeldBy(commits, items[i])
  }

  lemma HeldLonger(commits: seq<Commit>, next: Commit, c: Commit)
    requires HeldBy(commits, c) || (c == next && c.record.sequence == |commits| + 1)
    ensures HeldBy(commits + [next], c)
  {
  }

  ghost predicate Fingerprinted(s: Spool) {
    forall id | id in s.fingerprints :: HasEvent(s.items, id)
  }

  ghost predicate Modes(cfg: Config, st: Runtime) {
    && (!st.spooling ==> Tail(st) == [])
    && (!cfg.journalDurable && cfg.hasSpool ==> st.spooling)
    && (st.spooling ==> cfg.hasSpool && (cfg.journalDurable ==> cfg.spoolDurable))
    && (cfg.journalDurable && !cfg.spoolDurable ==> Tail(st) == [])
  }

  /** One verified chain with distinct events, of which head and events are the view. */
  ghost predicate Tracked(cs: seq<Commit>, head: Record, events: map<string, Record>) {
    Verified(cs) && UniqueIDs(cs) && head == HeadOf(cs) && Knows(events, cs)
  }

  ghost predicate Inv(cfg: Config, st: Runtime) {
    && Tracked(Chain(st), st.head, st.events)
    && Replicated(st.journal.commits, st.spool.items) && Fingerprinted(st.spool) && Modes(cfg, st)
  }

  // ----- appending to the chain

  lemma NextLinks(cs: seq<Commit>, c: Commit, event: Event)
    requires Verified(cs) && ValidCommit(c) && c.record == NextRecord(HeadOf(cs), event)
    ensures Verified(cs + [c]) && c.record.sequence == |cs| + 1
  {
    if cs != [] { assert Linked(cs, |cs| - 1); }
    hide ValidCommit;
    VerifiedAppend(cs, c);
  }

  lemma KnowsMore(events: map<string, Record>, cs: seq<Commit>, c: Commit)
    requires Knows(events, cs) && UniqueIDs(cs) && c.record.event.eventID !in events
    ensures Knows(events[c.record.event.eventID := c.record], cs + [c]) && UniqueIDs(cs + [c])
  {
    var id, events', cs' := c.record.event.eventID, events[c.record.event.eventID := c.record], cs + [c];
    assert cs'[|cs|] == c;
    forall i | 0 <= i < |cs|
      ensures cs'[i].record.event.eventID != id
    {
      assert cs'[i] == cs[i];
    }
    forall x | x in events'
      ensures HasEvent(cs', x)
    {
      if x != id {
        var i :| 0 <= i < |cs| && cs[i].record.event.eventID == x;
        assert cs'[i].record.event.eventID == x;
      }
    }
  }

  lemma {:induction false} ReplayedAll(items: seq<Commit>, n: nat)
    requires forall i | 0 <= i < |items| :: items[i].record.sequence <= n
    ensures Replayed(items, n) == |items|
  {
  }

  lemma AppendToJournal(commits: seq<Commit>, items: seq<Commit>, c: Commit)
    requires TailOf(items, |commits|) == [] && Replicated(commits, items)
    ensures TailOf(items, |commits| + 1) == [] && Replicated(commits + [c], items)
    ensures ChainOf(commits + [c], items) == ChainOf(commits, items) + [c]
  {
    assert Replayed(items, |commits|) == |items|;
    ReplayedAll(items, |commits| + 1);
    hide Replayed, HeldBy;
    forall k | 0 <= k < |items|
      ensures HeldBy(commits + [c], items[k])
    {
      HeldLonger(commits, c, items[k]);
    }
  }

  lemma {:induction false} ReplayedAppend(items: seq<Commit>, c: Commit, n: nat)
    requires c.record.sequence > n
    ensures Replayed(items + [c], n) == Replayed(items, n)
  {
    if items != [] && items[0].record.sequence <= n {
      assert (items + [c])[1..] == items[1..] + [c];
      ReplayedAppend(items[1..], c, n);
    }
  }

  lemma AppendToSpool(commits: seq<Commit>, items: seq<Commit>, c: Commit)
    requires Replicated(commits, items) && c.record.sequence > |commits|
    ensures TailOf(items + [c], |commits|) == TailOf(items, |commits|) + [c]
    ensures Replicated(commits, items + [c])
    ensures ChainOf(commits, items + [c]) == ChainOf(commits, items) + [c]
  {
    ReplayedAppend(items, c, |commits|);
    hide Replayed, HeldBy;
    SuffixGrows(items, c, Replayed(items, |commits|));
  }

  lemma SuffixGrows<T>(s: seq<T>, x: T, k: nat)
    requires k <= |s|
    ensures (s + [x])[k..] == s[k..] + [x]
  {
  }

  lemma SpoolItemKnown(st: Runtime, i: nat)
    requires Knows(st.events, Chain(st)) && Replicated(st.journal.commits, st.spool.items) && i < |st.spool.items|
    ensures st.spool.items[i].record.event.eventID in st.events
  {
    var n, c := |st.journal.commits|, st.spool.items[i];
    var k := Replayed(st.spool.items, n);
    if i < k {
      assert HeldBy(st.journal.commits, c) && Chain(st)[c.record.sequence - 1] == c;
    } else {
      assert Chain(st)[n + i - k] == c;
    }
  }

  /** An event the chain does not know is new to the spool too. */
  lemma FreshToSpool(st: Runtime, id: string)
    requires Knows(st.events, Chain(st)) && Replicated(st.journal.commits, st.spool.items) && Fingerprinted(st.spool) && id !in st.events
    ensures id !in st.spool.fingerprints
  {
    hide Replicated, Knows;
    if id in st.spool.fingerprints {
      var i: nat :| i < |st.spool.items| && st.spool.items[i].record.event.eventID == id;
      SpoolItemKnown(st, i);
    }
  }

  lemma TrackedGrows(cs: seq<Commit>, head: Record, events: map<string, Record>, event: Event, c: Commit)
    requires Tracked(cs, head, events) && event.eventID !in events
    requires c.record == NextRecord(head, event) && ValidCommit(c)
    ensures Tracked(cs + [c], c.record, events[event.eventID := c.record])
    ensures c.record.sequence == |cs| + 1 && c.record.previousHash == LastHash(cs)
  {
    NextLinks(cs, c, event);
    KnowsMore(events, cs, c);
    hide ValidCommit, Verified, UniqueIDs, Knows;
  }

  // ----- persist

  /** One commit at the end of the chain, and nothing else changed. */
  ghost predicate Extended(st: Runtime, st': Runtime, c: Commit) {
    && Chain(st') == Chain(st) + [c] && st'.head == c.record
    && st'.events == st.events[c.record.event.eventID := c.record]
    && (c in st'.journal.commits || c in st'.spool.items)
    && st.journal.commits <= st'.journal.commits && st.spool.items <= st'.spool.items
  }

  /** The journal takes the next commit of a runtime that is not spooling, unless the
      commit is malformed or its deliveries clash. */
  lemma JournalAccepts(st: Runtime, event: Event, c: Commit)
    requires Tracked(st.journal.commits, st.head, st.events) && event.eventID !in st.events
    requires c.record == NextRecord(st.head, event)
    ensures Append(st.journal, c).Err? ==>
      Append(st.journal, c).error != SequenceConflict && Append(st.journal, c).error != Unavailable
    ensures Append(st.journal, c).Ok? ==>
      && ValidCommit(c) && Append(st.journal, c).value.commits == st.journal.commits + [c]
  {
    if ValidCommit(c) {
      TrackedGrows(st.journal.commits, st.head, st.events, event, c);
      hide ValidCommit, Verified, UniqueIDs, CheckpointShape, ValidRecord;
      assert !HasEvent(st.journal.commits, event.eventID);
    }
  }

  lemma JournalStep(cfg: Config, st: Runtime, event: Event, c: Commit)
    requires Inv(cfg, st) && !st.spooling && event.eventID !in st.events
    requires c.record == NextRecord(st.head, event)
    ensures Append(st.journal, c).Err? ==>
      Append(st.journal, c).error != SequenceConflict && Append(st.journal, c).error != Unavailable
    ensures Append(st.journal, c).Ok? ==>
      var st' := Advance(st.(journal := Append(st.journal, c).value), c.record);
      Inv(cfg, st') && Extended(st, st', c) && c in st'.journal.commits
  {
    hide Tracked, Append, ValidCommit, TailOf, Replicated, Fingerprinted;
    assert Chain(st) == st.journal.commits;
    JournalAccepts(st, event, c);
    if Append(st.journal, c).Ok? {
      TrackedGrows(Chain(st), st.head, st.events, event, c);
      var st' := Advance(st.(journal := Append(st.journal, c).value), c.record);
      AppendToJournal(st.journal.commits, st.spool.items, c);
      assert st'.journal.commits[|st.journal.commits|] == c;
    }
  }

  lemma SpoolStep(cfg: Config, st: Runtime, event: Event, c: Commit)
    requires Inv(cfg, st) && st.spooling && event.eventID !in st.events
    requires c.record == NextRecord(st.head, event)
    ensures Put(st.spool, c).Ok? ==>
      var st' := Advance(st.(spool := Put(st.spool, c).value), c.record);
      Inv(cfg, st') && Extended(st, st', c) && c in st'.spool.items
  {
    hide Verified, UniqueIDs, Knows, ValidCommit, Replicated, Fingerprinted, TailOf;
    FreshToSpool(st, event.eventID);
    if Put(st.spool, c).Ok? {
      TrackedGrows(Chain(st), st.head, st.events, event, c);
      hide Tracked;
      var st' := Advance(st.(spool := Put(st.spool, c).value), c.record);
      AppendToSpool(st.journal.commits, st.spool.items, c);
      FingerprintsGrow(st.spool, c);
      assert st'.spool.items[|st.spool.items|] == c;
    }
  }

  lemma FingerprintsGrow(s: Spool, c: Commit)
    requires Fingerprinted(s)
    ensures Fingerprinted(Spool(s.items + [c], s.fingerprints[c.record.event.eventID := c]))
  {
    var items := s.items + [c];
    assert items[|s.items|] == c;
    forall id | id in s.fingerprints
      ensures HasEvent(items, id)
    {
      var i :| 0 <= i < |s.items| && s.items[i].record.event.eventID == id;
      assert items[i].record.event.eventID == id;
    }
  }

  lemma SpoolingIsGood(cfg: Config, st: Runtime)
    requires Inv(cfg, st) && cfg.hasSpool && cfg.spoolDurable
    ensures Inv(cfg, st.(spooling := true)) && Chain(st.(spooling := true)) == Chain(st)
  {
    hide Tracked, Fingerprinted, Replicated, TailOf;
  }

  lemma MadeCommit(cfg: Config, head: Record, event: Event, now: nat)
    requires MakeCommit(cfg, head, event, now).Ok?
    ensures var c := MakeCommit(cfg, head, event, now).value;
      && c.record == NextRecord(head, event)
      && (event.class_ == Critical && cfg.keyID.Some? ==> SignedCommit(cfg, c))
  {
    hide VerifiesCheckpoint;
  }

  /** The commit carries a checkpoint, one its configured keys verify. */
  ghost predicate SignedCommit(cfg: Config, c: Commit) {
    && c.checkpoint.Some?
    && (cfg.hasVerifiers ==> VerifiesCheckpoint(cfg, c.record, c.checkpoint.value))
  }

  /** The commit a successful persist of a new event leaves behind. */
  ghost predicate Persisted(cfg: Config, st: Runtime, st': Runtime, event: Event, c: Commit) {
    && Extended(st, st', c) && c.record.event == event
    && (event.class_ == Critical && cfg.keyID.Some? ==> SignedCommit(cfg, c))
    && (event.class_ == Critical ==>
          || (c in st'.journal.commits && (cfg.journalDurable || !cfg.hasSpool))
          || (c in st'.spool.items && cfg.spoolDurable))
  }

  lemma {:induction false} AttemptKeepsInv(cfg: Config, st: Runtime, event: Event, now: nat, faults: seq<Fault>, k: nat)
      returns (c: Commit)
    requires Inv(cfg, st) && event.eventID !in st.events && k <= 8
    ensures var (st', r) := Attempt(cfg, st, event, now, faults, k);
      && Inv(cfg, st')
      && (r.Err? ==> st' == st.(spooling := st'.spooling))
      && (r.Ok? ==> c.record == r.value && Persisted(cfg, st, st', event, c))
    decreases 8 - k
  {
    hide Tracked, MakeCommit, Replicated, Fingerprinted, Put, Append, TailOf, ChainOf, SignedCommit;
    c := Commit(NO_RECORD, None, []);
    if k < 8 && MakeCommit(cfg, st.head, event, now).Ok? {
      c := MakeCommit(cfg, st.head, event, now).value;
      MadeCommit(cfg, st.head, event, now);
      if st.spooling {
        SpoolStep(cfg, st, event, c);
      } else {
        JournalStep(cfg, st, event, c);
        if FaultAt(faults, k) == Down && cfg.hasSpool && cfg.spoolDurable {
          SpoolingIsGood(cfg, st);
          c := AttemptKeepsInv(cfg, st.(spooling := true), event, now, faults, k + 1);
        }
      }
    }
  }

  /** Persisting keeps the invariant and never drops anything from the chain. */
  lemma PersistKeepsInv(cfg: Config, st: Runtime, event: Event, now: nat, faults: seq<Fault>)
    requires Inv(cfg, st)
    ensures var (st', r) := Persist(cfg, st, event, now, faults);
      && Inv(cfg, st') && Chain(st) <= Chain(st') && st.journal.commits <= st'.journal.commits
      && (r.Err? ==> st' == st.(spooling := st'.spooling))
      && (r.Ok? ==> r.value.event == event && event.eventID in st'.events
                    && st'.events[event.eventID] == r.value)
      && (forall id | id in st.events :: id in st'.events && st'.events[id] == st.events[id])
  {
    hide Tracked, Replicated, Fingerprinted, Modes, Attempt, TailOf, ChainOf;
    if event.eventID !in st.events {
      var c := AttemptKeepsInv(cfg, st, event, now, faults, 0);
      var (st', r) := Attempt(cfg, st, event, now, faults, 0);
      if r.Ok? {
        assert Chain(st') == Chain(st) + [c] && c.record.event.eventID == event.eventID;
      } else {
        assert Chain(st') == Chain(st);
      }
    }
  }

  // ----- replay

  /** The journal takes the first unreplayed entry: the chain does not change. */
  lemma {:induction false} ReplayedOneMore(items: seq<Commit>, n: nat)
    requires Replayed(items, n) < |items| && items[Replayed(items, n)].record.sequence == n + 1
    requires Replayed(items, n) + 1 < |items| ==> items[Replayed(items, n) + 1].record.sequence > n + 1
    ensures Replayed(items, n + 1) == Replayed(items, n) + 1
  {
    if items[0].record.sequence <= n {
      ReplayedOneMore(items[1..], n);
    }
  }

  lemma TailEntry(commits: seq<Commit>, items: seq<Commit>, i: nat)
    requires Verified(ChainOf(commits, items)) && Replayed(items, |commits|) <= i < |items|
    ensures items[i].record.sequence == |commits| + 1 + i - Replayed(items, |commits|)
    ensures ValidCommit(items[i])
    ensures items[i].record.previousHash == LastHash(ChainOf(commits, items)[..|commits| + i - Replayed(items, |commits|)])
  {
    hide ValidCommit, Replayed;
    var p := |commits| + i - Replayed(items, |commits|);
    assert Linked(ChainOf(commits, items), p) && ChainOf(commits, items)[p] == items[i];
  }

  /** Moving the first owed entry into the journal keeps chain and replica. */
  lemma ReplayMoves(commits: seq<Commit>, items: seq<Commit>, i: nat)
    requires Verified(ChainOf(commits, items)) && Replicated(commits, items)
    requires i == Replayed(items, |commits|) < |items|
    ensures Replayed(items, |commits| + 1) == i + 1
    ensures ChainOf(commits + [items[i]], items) == ChainOf(commits, items)
    ensures Replicated(commits + [items[i]], items)
  {
    TailEntry(commits, items, i);
    if i + 1 < |items| { TailEntry(commits, items, i + 1); }
    ReplayedOneMore(items, |commits|);
    hide Replayed, Verified, Replicated, ChainOf;
    MovedChain(commits, items, i);
    MovedReplica(commits, items, i);
  }

  lemma MovedChain(commits: seq<Commit>, items: seq<Commit>, i: nat)
    requires i == Replayed(items, |commits|) < |items| && Replayed(items, |commits| + 1) == i + 1
    ensures ChainOf(commits + [items[i]], items) == ChainOf(commits, items)
  {
    hide Replayed;
    SplitFirst(commits, items, i);
  }

  lemma SplitFirst<T>(a: seq<T>, b: seq<T>, i: nat)
    requires i < |b|
    ensures a + [b[i]] + b[i + 1..] == a + b[i..]
  {
    assert b[i..] == [b[i]] + b[i + 1..];
  }

  lemma MovedReplica(commits: seq<Commit>, items: seq<Commit>, i: nat)
    requires Replicated(commits, items) && i == Replayed(items, |commits|) < |items|
    requires Replayed(items, |commits| + 1) == i + 1 && items[i].record.sequence == |commits| + 1
    ensures Replicated(commits + [items[i]], items)
  {
    hide Replayed, HeldBy;
    forall k | 0 <= k < i + 1
      ensures HeldBy(commits + [items[i]], items[k])
    {
      HeldLonger(commits, items[i], items[k]);
    }
  }

  /** Offering entry i to the journal while everything below it is replayed: a copy of
      a journal commit changes nothing, and the next owed entry is taken. */
  lemma OfferEntry(cfg: Config, st: Runtime, i: nat)
    requires Inv(cfg, st) && i < |st.spool.items| && i <= Replayed(st.spool.items, |st.journal.commits|)
    ensures var c := st.spool.items[i];
      && ValidCommit(c) && c.record.sequence <= st.head.sequence
      && (Append(st.journal, c).Err? ==> Append(st.journal, c).error == OutboxConflict)
      && (Append(st.journal, c).Ok? ==>
            var st' := st.(journal := Append(st.journal, c).value);
            && Inv(cfg, st') && Chain(st') == Chain(st) && st.journal.commits <= st'.journal.commits
            && i + 1 <= Replayed(st.spool.items, |st'.journal.commits|)
            && (i < Replayed(st.spool.items, |st.journal.commits|) ==> st' == st))
  {
    var commits, items, c := st.journal.commits, st.spool.items, st.spool.items[i];
    if i < Replayed(items, |commits|) {
      CopyIsIdempotent(cfg, st, i);
    } else {
      OwedIsTaken(cfg, st, i);
    }
  }

  lemma CopyIsIdempotent(cfg: Config, st: Runtime, i: nat)
    requires Inv(cfg, st) && i < Replayed(st.spool.items, |st.journal.commits|)
    ensures var c := st.spool.items[i];
      ValidCommit(c) && c.record.sequence <= st.head.sequence && Append(st.journal, c) == Ok(st.journal)
  {
    var commits, c := st.journal.commits, st.spool.items[i];
    var n := c.record.sequence;
    assert commits[n - 1] == c && Chain(st)[n - 1] == c;
    assert Linked(Chain(st), n - 1) && Linked(Chain(st), |Chain(st)| - 1);
    hide ValidCommit, Replayed, Verified, UniqueIDs, Knows;
  }

  lemma OwedIsTaken(cfg: Config, st: Runtime, i: nat)
    requires Inv(cfg, st) && i == Replayed(st.spool.items, |st.journal.commits|) < |st.spool.items|
    ensures var c := st.spool.items[i];
      && ValidCommit(c) && c.record.sequence <= st.head.sequence
      && (Append(st.journal, c).Err? ==> Append(st.journal, c).error == OutboxConflict)
      && (Append(st.journal, c).Ok? ==>
            && Append(st.journal, c).value.commits == st.journal.commits + [c]
            && Inv(cfg, st.(journal := Append(st.journal, c).value))
            && Chain(st.(journal := Append(st.journal, c).value)) == Chain(st)
            && Replayed(st.spool.items, |st.journal.commits| + 1) == i + 1)
  {
    var commits, items, c := st.journal.commits, st.spool.items, st.spool.items[i];
    TailEntry(commits, items, i);
    OwedIsNew(st, i);
    ReplayMoves(commits, items, i);
    HeadIsLast(st);
    hide ValidCommit, Replayed, Verified, UniqueIDs, Knows, Replicated, Fingerprinted;
    assert ChainOf(commits, items)[..|commits|] == commits;
    if Append(st.journal, c).Ok? {
      assert Tail(st) != [];
    }
  }

  lemma HeadIsLast(st: Runtime)
    requires Tracked(Chain(st), st.head, st.events)
    ensures st.head.sequence == |Chain(st)|
  {
    if Chain(st) != [] { assert Linked(Chain(st), |Chain(st)| - 1); }
  }

  lemma OwedIsNew(st: Runtime, i: nat)
    requires UniqueIDs(Chain(st)) && i == Replayed(st.spool.items, |st.journal.commits|) < |st.spool.items|
    ensures !HasEvent(st.journal.commits, st.spool.items[i].record.event.eventID)
  {
    hide Replayed;
    var n := |st.journal.commits|;
    assert Chain(st)[n] == st.spool.items[i];
    assert forall k | 0 <= k < n :: Chain(st)[k] == st.journal.commits[k];
  }

  lemma ReplayDone(cfg: Config, st: Runtime)
    requires Inv(cfg, st) && cfg.hasSpool
    requires |st.spool.items| <= Replayed(st.spool.items, |st.journal.commits|)
    ensures var st' := st.(spooling := !cfg.journalDurable);
      Inv(cfg, st') && Tail(st') == [] && Chain(st') == st.journal.commits == Chain(st)
  {
    hide Tracked, Replicated, Fingerprinted, Replayed;
  }

  lemma OweOrNot(st: Runtime, i: nat)
    requires i < |st.spool.items|
    ensures Tail(st) == [] ==> i < Replayed(st.spool.items, |st.journal.commits|)
  {
  }

  lemma {:induction false} ReplayKeepsInv(cfg: Config, st: Runtime, faults: seq<Fault>, i: nat)
    requires Inv(cfg, st) && cfg.hasSpool && i <= |st.spool.items|
    requires i <= Replayed(st.spool.items, |st.journal.commits|)
    ensures var (st', r) := ReplayFrom(cfg, st, st.spool.items, faults, i);
      && Inv(cfg, st') && Chain(st') == Chain(st)
      && st' == st.(journal := st'.journal, spooling := st'.spooling)
      && st.journal.commits <= st'.journal.commits
      && (r.Fail? ==> st'.spooling == st.spooling)
      && (r.Pass? ==> st'.journal.commits == Chain(st) && Tail(st') == []
                      && st'.spooling == !cfg.journalDurable)
      && (Tail(st) == [] ==> st'.journal == st.journal)
    decreases |st.spool.items| - i
  {
    hide Tracked, Replicated, Fingerprinted, Append, ValidCommit, Modes, TailOf, ChainOf, Replayed;
    if i == |st.spool.items| {
      ReplayDone(cfg, st);
    } else {
      OfferEntry(cfg, st, i);
      OweOrNot(st, i);
      var c := st.spool.items[i];
      if Append(st.journal, c).Ok? && FaultAt(faults, 2 * i) == Works {
        var st1 := st.(journal := Append(st.journal, c).value);
        ReplayKeepsInv(cfg, st1, faults, i + 1);
      }
    }
  }

  // ----- whole runs

  lemma StepKeepsInv(cfg: Config, st: Runtime, op: Op)
    requires Inv(cfg, st)
    ensures Inv(cfg, Step(cfg, st, op)) && Chain(st) <= Chain(Step(cfg, st, op))
    ensures st.journal.commits <= Step(cfg, st, op).journal.commits
  {
    hide Inv, Persist, ReplayFrom, ChainOf;
    match op
    case PersistOp(event, now, faults) => PersistKeepsInv(cfg, st, event, now, faults);
    case ReplayOp(faults) => if cfg.hasSpool { ReplayKeepsInv(cfg, st, faults, 0); }
  }

  /** NewRuntime over a verified journal whose spool, if any, owes it nothing. */
  lemma OpenIsGood(cfg: Config, journal: Journal, spool: Spool)
    requires Verified(journal.commits) && UniqueIDs(journal.commits)
    requires Replicated(journal.commits, spool.items) && TailOf(spool.items, |journal.commits|) == []
    requires Fingerprinted(spool)
    ensures Inv(cfg, Open(cfg, journal, spool))
  {
    hide Verified;
    LearnedKnows(journal.commits);
    hide UniqueIDs, Knows, Replicated, Fingerprinted, TailOf, Learned;
    assert Chain(Open(cfg, journal, spool)) == journal.commits;
  }

  lemma {:induction false} LearnedKnows(cs: seq<Commit>)
    requires UniqueIDs(cs)
    ensures Knows(Learned(cs), cs)
  {
    if cs != [] {
      var n := |cs| - 1;
      LearnedKnows(cs[..n]);
      assert cs == cs[..n] + [cs[n]];
      hide Learned;
      assert forall i | 0 <= i < n :: cs[..n][i] == cs[i];
      KnowsMore(Learned(cs[..n]), cs[..n], cs[n]);
    }
  }

  /** In every run, journal and owed spool tail are one gap-free verified chain that
      ends at the head, keeps distinct events and never loses a commit. */
  lemma {:induction false} RunKeepsChain(cfg: Config, st: Runtime, ops: seq<Op>)
    requires Inv(cfg, st)
    ensures Inv(cfg, After(cfg, st, ops)) && Chain(st) <= Chain(After(cfg, st, ops))
    ensures st.journal.commits <= After(cfg, st, ops).journal.commits
  {
    hide Inv, Step, Chain;
    if ops != [] {
      var n := |ops| - 1;
      RunKeepsChain(cfg, st, ops[..n]);
      StepKeepsInv(cfg, After(cfg, st, ops[..n]), ops[n]);
    }
  }

  /** A Replay that succeeds makes the journal the whole chain; a second one, with any
      faults, changes nothing. */
  lemma ReplayCompletes(cfg: Config, st: Runtime, faults: seq<Fault>, again: seq<Fault>)
    requires Inv(cfg, st) && cfg.hasSpool && Replay(cfg, st, faults).1.Pass?
    ensures var st' := Replay(cfg, st, faults).0;
      && st'.journal.commits == Chain(st) && Verified(st'.journal.commits)
      && st'.head == HeadOf(st'.journal.commits) && st'.spooling == !cfg.journalDurable
      && Replay(cfg, st', again).0 == st'
  {
    hide Tracked, Replicated, Fingerprinted, ReplayFrom, TailOf;
    ReplayKeepsInv(cfg, st, faults, 0);
    var st' := Replay(cfg, st, faults).0;
    ReplayKeepsInv(cfg, st', again, 0);
    assert Tracked(Chain(st'), st'.head, st'.events) && Chain(st') == Chain(st);
    TrackedParts(Chain(st'), st'.head, st'.events);
  }

  lemma TrackedParts(cs: seq<Commit>, head: Record, events: map<string, Record>)
    requires Tracked(cs, head, events)
    ensures Verified(cs) && UniqueIDs(cs) && head == HeadOf(cs) && Knows(events, cs)
  {
  }

  // ----- critical events are durable and signed

  /** The record is held, with its checkpoint, by a durable journal or a durable spool. */
  ghost predicate DurablySigned(cfg: Config, st: Runtime, c: Commit) {
    && SignedCommit(cfg, c)
    && ((cfg.journalDurable && c in st.journal.commits) || (cfg.spoolDurable && c in st.spool.items))
  }

  ghost predicate CriticalsHeld(cfg: Config, st: Runtime) {
    forall i | 0 <= i < |Chain(st)| && Chain(st)[i].record.event.class_ == Critical ::
      DurablySigned(cfg, st, Chain(st)[i])
  }

  /** A configuration that Append lets critical events through with. */
  ghost predicate CanHoldCriticals(cfg: Config) {
    cfg.keyID.Some? && (cfg.journalDurable || (cfg.hasSpool && cfg.spoolDurable))
  }

  lemma HeldGrows(cfg: Config, st: Runtime, st': Runtime, c: Commit)
    requires CanHoldCriticals(cfg) && CriticalsHeld(cfg, st) && Persisted(cfg, st, st', c.record.event, c)
    ensures CriticalsHeld(cfg, st')
    ensures c.record.event.class_ == Critical ==> DurablySigned(cfg, st', c)
  {
    hide ChainOf, Inv;
    forall i | 0 <= i < |Chain(st')| && Chain(st')[i].record.event.class_ == Critical
      ensures DurablySigned(cfg, st', Chain(st')[i])
    {
      if i < |Chain(st)| {
        assert Chain(st')[i] == Chain(st)[i] && DurablySigned(cfg, st, Chain(st)[i]);
      } else {
        assert Chain(st')[i] == c;
      }
    }
  }

  lemma PersistHolds(cfg: Config, st: Runtime, event: Event, now: nat, faults: seq<Fault>)
    requires Inv(cfg, st) && CanHoldCriticals(cfg) && CriticalsHeld(cfg, st)
    ensures var (st', r) := Persist(cfg, st, event, now, faults);
      && CriticalsHeld(cfg, st')
      && (r.Ok? && event.class_ == Critical ==>
            exists i :: 0 <= i < |Chain(st')| && Chain(st')[i].record == r.value
                        && DurablySigned(cfg, st', Chain(st')[i]))
  {
    hide Tracked, Replicated, Fingerprinted, Modes, Attempt, ChainOf;
    var (st', r) := Persist(cfg, st, event, now, faults);
    PersistKeepsInv(cfg, st, event, now, faults);
    if event.eventID !in st.events {
      var c := AttemptKeepsInv(cfg, st, event, now, faults, 0);
      if r.Ok? { HeldGrows(cfg, st, st', c); } else { assert Chain(st') == Chain(st); HeldSame(cfg, st, st'); }
    }
    if r.Ok? && event.class_ == Critical {
      TrackedParts(Chain(st'), st'.head, st'.events);
      assert HasEvent(Chain(st'), event.eventID);
      var i :| 0 <= i < |Chain(st')| && Chain(st')[i].record.event.eventID == event.eventID;
      assert Chain(st')[i].record == r.value;
    }
  }

  lemma HeldSame(cfg: Config, st: Runtime, st': Runtime)
    requires CriticalsHeld(cfg, st) && st' == st.(spooling := st'.spooling)
    ensures CriticalsHeld(cfg, st')
  {
    hide ChainOf;
    assert Chain(st') == Chain(st);
    forall i | 0 <= i < |Chain(st')| && Chain(st')[i].record.event.class_ == Critical
      ensures DurablySigned(cfg, st', Chain(st')[i])
    {
      assert DurablySigned(cfg, st, Chain(st)[i]);
    }
  }

  lemma ReplayHolds(cfg: Config, st: Runtime, faults: seq<Fault>)
    requires Inv(cfg, st) && CriticalsHeld(cfg, st)
    ensures CriticalsHeld(cfg, Replay(cfg, st, faults).0)
  {
    hide Tracked, Replicated, Fingerprinted, Modes, ReplayFrom, ChainOf;
    if cfg.hasSpool {
      ReplayKeepsInv(cfg, st, faults, 0);
      var st' := Replay(cfg, st, faults).0;
      forall i | 0 <= i < |Chain(st')| && Chain(st')[i].record.event.class_ == Critical
        ensures DurablySigned(cfg, st', Chain(st')[i])
      {
        assert DurablySigned(cfg, st, Chain(st)[i]);
      }
    }
  }

  lemma {:induction false} RunHolds(cfg: Config, st: Runtime, ops: seq<Op>)
    requires Inv(cfg, st) && CanHoldCriticals(cfg) && CriticalsHeld(cfg, st)
    ensures Inv(cfg, After(cfg, st, ops)) && CriticalsHeld(cfg, After(cfg, st, ops))
  {
    hide Inv, CriticalsHeld, Persist, Replay;
    if ops != [] {
      var n := |ops| - 1;
      RunHolds(cfg, st, ops[..n]);
      StepKeepsInv(cfg, After(cfg, st, ops[..n]), ops[n]);
      match ops[n]
      case PersistOp(event, now, faults) => PersistHolds(cfg, After(cfg, st, ops[..n]), event, now, faults);
      case ReplayOp(faults) => ReplayHolds(cfg, After(cfg, st, ops[..n]), faults);
    }
  }

  /** From an empty stream, after any run: a critical append that succeeds answers with a
      record of that very event which a durable journal or a durable spool holds signed. */
  lemma CriticalAppendIsDurable(cfg: Config, ops: seq<Op>, event: Event, now: nat, faults: seq<Fault>)
    requires event.class_ == Critical
    requires var st := After(cfg, Open(cfg, Journal([], map[]), Spool([], map[])), ops);
      AppendCritical(cfg, st, event, now, faults).1.Ok?
    ensures var st := After(cfg, Open(cfg, Journal([], map[]), Spool([], map[])), ops);
      var (st', r) := AppendCritical(cfg, st, event, now, faults);
      && r.value.event == event
      && exists i :: 0 <= i < |Chain(st')| && Chain(st')[i].record == r.value
                     && DurablySigned(cfg, st', Chain(st')[i])
  {
    hide Inv, CriticalsHeld, Persist, After, ValidEvent, DurablySigned;
    var fresh_ := Open(cfg, Journal([], map[]), Spool([], map[]));
    EmptyIsGood(cfg);
    RunHolds(cfg, fresh_, ops);
    var st := After(cfg, fresh_, ops);
    PersistKeepsInv(cfg, st, event, now, faults);
    PersistHolds(cfg, st, event, now, faults);
  }

  lemma EmptyIsGood(cfg: Config)
    ensures Inv(cfg, Open(cfg, Journal([], map[]), Spool([], map[])))
    ensures CriticalsHeld(cfg, Open(cfg, Journal([], map[]), Spool([], map[])))
  {
    OpenIsGood(cfg, Journal([], map[]), Spool([], map[]));
    hide Inv;
  }
}
