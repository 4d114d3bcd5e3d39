/** What each call of the audit core answers, in terms of what it was given. */
module AuditExact {
  import opened Wrappers
  import opened AuditChain
  import opened AuditRuntime
  import opened AuditSafety

  // ----- what is well formed

  /** Up to 256 letters, digits and a few marks, which nowhere spell the start of an address. */
  ghost predicate ProperID(v: string) {
    && v != "" && |v| <= 256
    && (forall c | c in v :: 'a' <= c <= 'z' || 'A' <= c <= 'Z' || '0' <= c <= '9' || c in ['.', '_', '-', ':', '@', '/'])
    && !(exists i: nat | i <= |v| :: "://" <= v[i..])
  }

  lemma IDIff(v: string)
    ensures ValidID(v) <==> ProperID(v)
  {
    forall i: nat | i <= |v|
      ensures "://" <= v[i..] <==> i + 3 <= |v| && v[i] == ':' && v[i + 1] == '/' && v[i + 2] == '/'
    {
      MarkAt(v, i);
    }
    assert forall i | 0 <= i < |v| :: v[i] in v;
    if ValidID(v) {
      forall i: nat | i <= |v|
        ensures !("://" <= v[i..])
      {
        assert 0 <= i <= |v| - 3 ==> v[i] != ':' || v[i + 1] != '/' || v[i + 2] != '/';
      }
    }
    if ProperID(v) {
      forall i | 0 <= i <= |v| - 3
        ensures !(v[i] == ':' && v[i + 1] == '/' && v[i + 2] == '/')
      {
        assert !("://" <= v[i..]);
      }
    }
  }

  lemma MarkAt(v: string, i: nat)
    requires i <= |v|
    ensures "://" <= v[i..] <==> i + 3 <= |v| && v[i] == ':' && v[i + 1] == '/' && v[i + 2] == '/'
  {
    if i + 3 <= |v| { assert v[i..][..3] == [v[i], v[i + 1], v[i + 2]]; }
  }

  /** An event names everything it must by such IDs, has a known class and outcome, a time of this calendar
      and an epoch. */
  lemma EventIff(e: Event)
    ensures ValidEvent(e) <==>
      && (forall v | v in [e.eventID, e.streamID, e.tenantID, e.actor, e.kind, e.action, e.resource] :: ProperID(v))
      && (forall v | v in [e.correlationID, e.sessionID, e.leaseID, e.confirmationID, e.reason] && v != "" :: ProperID(v))
      && e.class_ in {Critical, Normal} && e.outcome in {Success, Failure, Denied, Started}
      && e.policyEpoch > 0 && 0 < e.at < END_OF_TIME && (e.evidenceDigest == "" || IsHexDigest(e.evidenceDigest))
  {
    forall v
      ensures ValidID(v) <==> ProperID(v)
    {
      IDIff(v);
    }
    hide ValidID, ProperID, IsHexDigest;
  }

  /** What a commit must be: a record that hashes to its own hash, a checkpoint that names it, deliveries that
      name it, no two to one target. */
  ghost predicate ProperCommit(c: Commit) {
    && ValidEvent(c.record.event) && c.record.sequence > 0 && c.record.hash == HashRecord(c.record)
    && (c.record.sequence == 1 <==> c.record.previousHash == NoHash)
    && (c.checkpoint.Some? ==>
          var cp := c.checkpoint.value;
          && cp.streamID == c.record.event.streamID && cp.sequence == c.record.sequence && cp.hash == c.record.hash
          && cp.at != 0 && ValidID(cp.keyID) && |cp.signature| == 64)
    && (forall d | d in c.outbox ::
          && d.streamID == c.record.event.streamID && d.sequence == c.record.sequence && d.recordHash == c.record.hash
          && d.eventID == c.record.event.eventID && !d.target.OtherTarget? && d.deliveryID != NoDelivery)
    && (forall i, j | 0 <= i < j < |c.outbox| :: c.outbox[i].target != c.outbox[j].target)
  }

  lemma ProperIffValid(c: Commit)
    ensures ProperCommit(c) <==> ValidCommit(c)
  {
    hide ValidEvent, ValidID;
  }

  /** The journal accepts its own commit again without a change, and the next one: numbered and linked to the
      last, of an event it does not hold, with deliveries that fit its outbox. */
  lemma AppendIff(j: Journal, c: Commit)
    ensures var n := c.record.sequence;
      && (Append(j, c).Ok? <==>
            ValidCommit(c)
            && ((0 < n <= |j.commits| && j.commits[n - 1] == c)
                || (n == |j.commits| + 1 && (n > 1 ==> c.record.previousHash == LastHash(j.commits))
                    && !HasEvent(j.commits, c.record.event.eventID) && !OutboxClash(j.outbox, c.outbox))))
      && (Append(j, c).Ok? && n <= |j.commits| ==> Append(j, c).value == j)
      && (Append(j, c).Ok? && n > |j.commits| ==> Append(j, c).value.commits == j.commits + [c])
  {
    hide ValidCommit, ValidateCommit, HasEvent, OutboxClash, Enqueue;
    ValidOrNot(c);
  }

  lemma ValidOrNot(c: Commit)
    ensures ValidCommit(c) <==> ValidateCommit(c).Pass?
  {
    hide ValidateCommit;
  }

  /** The spool accepts a commit it holds for the event again without a change, and one of a new event. */
  lemma PutIff(s: Spool, c: Commit)
    ensures var id := c.record.event.eventID;
      && (Put(s, c).Ok? <==> ValidCommit(c) && (id in s.fingerprints ==> s.fingerprints[id] == c))
      && (Put(s, c).Ok? ==>
            Put(s, c).value == if id in s.fingerprints then s else Spool(s.items + [c], s.fingerprints[id := c]))
  {
    hide ValidCommit;
  }

  /** A commit carries a checkpoint exactly when there is a key and the event is critical or its turn has
      come; the checkpoint is the signer's, of this very record, and verifies where verifiers are given. */
  lemma CheckpointIff(cfg: Config, head: Record, event: Event, now: nat)
    ensures var due := cfg.keyID.Some?
        && (event.class_ == Critical || (cfg.checkpointEvery > 0 && (head.sequence + 1) % cfg.checkpointEvery == 0));
      var r := MakeCommit(cfg, head, event, now);
      && (r.Ok? ==> r.value.record == NextRecord(head, event) && (r.value.checkpoint.Some? <==> due))
      && (r.Ok? && due ==>
            var rec, cp := r.value.record, r.value.checkpoint.value;
            && cp.streamID == cfg.stream && cp.sequence == rec.sequence && cp.hash == rec.hash && cp.at == now
            && cp.keyID == cfg.keyID.value && cfg.sign(cp.(signature := [])) == Some(cp.signature)
            && (cfg.hasVerifiers ==> VerifiesCheckpoint(cfg, rec, cp)))
      && (!due ==> r.Ok?)
      && (r.Err? ==> r.error == SignerUnavailable || r.error == CheckpointInvalid)
  {
    hide VerifiesCheckpoint, Deliveries;
  }

  /** The next record counts on, names the event and the hash before it. */
  lemma NextRecordIs(head: Record, event: Event)
    ensures var r := NextRecord(head, event);
      && r.sequence == head.sequence + 1 && r.event == event && r.previousHash == head.hash && r.hash == HashRecord(r)
  {
  }

  /** An event ID is persisted once: again the same event answers its record, another event is refused, and
      neither changes anything. */
  lemma PersistIsIdempotent(cfg: Config, st: Runtime, event: Event, now: nat, faults: seq<Fault>)
    requires Inv(cfg, st) && event.eventID in st.events
    ensures Persist(cfg, st, event, now, faults).0 == st
    ensures Persist(cfg, st, event, now, faults).1 ==
      if st.events[event.eventID].event == event then Ok(st.events[event.eventID]) else Err(ReplayConflict)
  {
    hide Inv, Attempt;
  }

  /** A critical event is refused, unchanged, when malformed or of another stream, without a key, or without
      a durable place. */
  lemma CriticalNeeds(cfg: Config, st: Runtime, event: Event, now: nat, faults: seq<Fault>)
    requires AppendCritical(cfg, st, event, now, faults).1.Ok?
    ensures ValidEvent(event) && event.streamID == cfg.stream && cfg.keyID.Some?
    ensures cfg.journalDurable || (cfg.hasSpool && cfg.spoolDurable)
  {
    hide Persist, ValidEvent;
  }

  lemma CriticalIsPersisted(cfg: Config, st: Runtime, event: Event, now: nat, faults: seq<Fault>)
    requires ValidEvent(event) && event.streamID == cfg.stream && cfg.keyID.Some?
    requires cfg.journalDurable || (cfg.hasSpool && cfg.spoolDurable)
    ensures AppendCritical(cfg, st, event, now, faults) == Persist(cfg, st, event, now, faults)
  {
    hide Persist, ValidEvent;
  }

  /** When head and journal have come apart, the runtime reads the journal's last record and tries again, and
      that helps exactly when the journal has not gone past the head: a number it has already given to another
      record is a conflict, which is not tried again. */
  lemma ResyncIff(cfg: Config, st: Runtime, event: Event, now: nat, c0: Commit, c: Commit)
    requires !st.spooling && Verified(st.journal.commits) && event.eventID !in st.events
    requires !HasEvent(st.journal.commits, event.eventID) && !OutboxClash(st.journal.outbox, c.outbox)
    requires MakeCommit(cfg, st.head, event, now) == Ok(c0) && ValidCommit(c0)
    requires MakeCommit(cfg, HeadOf(st.journal.commits), event, now) == Ok(c) && ValidCommit(c)
    ensures var (st', r) := Persist(cfg, st, event, now, []);
      && (r.Ok? <==> st.head.sequence >= |st.journal.commits|)
      && (r.Ok? ==> r.value == c.record && st'.journal.commits == st.journal.commits + [c])
      && (r.Err? ==> r.error == ReplayConflict && st' == st)
  {
    var rows := st.journal.commits;
    HeadCounts(rows);
    CheckpointIff(cfg, st.head, event, now);
    CheckpointIff(cfg, HeadOf(rows), event, now);
    assert Attempt(cfg, st, event, now, [], 0) == Persist(cfg, st, event, now, []);
    AppendIff(st.journal, c);
    AppendIff(st.journal, c0);
    ConflictIs(st.journal, c0);
    if st.head.sequence < |rows| {
      assert rows[st.head.sequence] != c0;
    } else if st.head.sequence == |rows| && c0.record.previousHash == LastHash(rows) {
      SameCommit(cfg, st.head, HeadOf(rows), event, now);
    } else {
      FirstIsUnlinked(c0);
      var st1 := st.(head := HeadOf(rows));
      assert Attempt(cfg, st, event, now, [], 0) == Attempt(cfg, st1, event, now, [], 1);
    }
    hide MakeCommit, ValidCommit, Append, OutboxClash;
  }

  const FIRST := Event("a", "s", "t", "u", "k", "x", "r", Success, "", "", "", "", "", "", 1, Normal, 1)
  const SECOND := FIRST.(eventID := "b")

  /** Another writer's record is in the journal, and this runtime's head is from before it: the event is not
      appended, however often that is tried. */
  lemma PassedHeadIsRefused()
    ensures var cfg := Config("s", true, false, false, None, _ => None, false, _ => false, [], 0);
      var st := Runtime(Journal([Commit(NextRecord(NO_RECORD, FIRST), None, [])], map[]), Spool([], map[]), NO_RECORD, map[], false);
      Persist(cfg, st, SECOND, 1, []) == (st, Err(ReplayConflict))
  {
    var cfg := Config("s", true, false, false, None, _ => None, false, _ => false, [], 0);
    var c1 := Commit(NextRecord(NO_RECORD, FIRST), None, []);
    var c0 := Commit(NextRecord(NO_RECORD, SECOND), None, []);
    var c := Commit(NextRecord(c1.record, SECOND), None, []);
    ShortIDs();
    hide ValidID;
    assert ValidCommit(c1) && ValidCommit(c0) && ValidCommit(c);
    hide ValidCommit;
    var st := Runtime(Journal([c1], map[]), Spool([], map[]), NO_RECORD, map[], false);
    assert st.journal.commits[..0] == [];
    assert Deliveries(cfg, c0.record, 1) == [] && Deliveries(cfg, c.record, 1) == [];
    ResyncIff(cfg, st, SECOND, 1, c0, c);
  }

  lemma ShortIDs()
    ensures forall v | v in ["a", "b", "s", "t", "u", "k", "x", "r"] :: ValidID(v)
  {
  }

  lemma HeadCounts(cs: seq<Commit>)
    requires Verified(cs)
    ensures HeadOf(cs).sequence == |cs| && HeadOf(cs).hash == LastHash(cs)
  {
    assert cs != [] ==> Linked(cs, |cs| - 1);
  }

  /** Only number and hash of the head matter. */
  lemma SameCommit(cfg: Config, head: Record, other: Record, event: Event, now: nat)
    requires head.sequence == other.sequence && head.hash == other.hash
    ensures MakeCommit(cfg, head, event, now) == MakeCommit(cfg, other, event, now)
  {
    assert NextRecord(head, event) == NextRecord(other, event);
  }

  lemma FirstIsUnlinked(c: Commit)
    requires ValidCommit(c)
    ensures c.record.sequence > 0 && (c.record.sequence == 1 ==> c.record.previousHash == NoHash)
  {
    hide ValidEvent, CheckpointShape, ValidDelivery;
  }

  /** How the journal turns down a commit of an event it does not hold. */
  lemma ConflictIs(j: Journal, c: Commit)
    requires ValidCommit(c) && !HasEvent(j.commits, c.record.event.eventID)
    ensures c.record.sequence <= |j.commits| ==> Append(j, c) == Err(ReplayConflict)
    ensures c.record.sequence > |j.commits| + 1 ==> Append(j, c) == Err(SequenceConflict)
    ensures c.record.sequence == |j.commits| + 1 > 1 && c.record.previousHash != LastHash(j.commits) ==>
      Append(j, c) == Err(SequenceConflict)
  {
    FirstIsUnlinked(c);
    hide ValidCommit, ValidateCommit, OutboxClash;
    ValidOrNot(c);
  }

  /** A replay passes over an entry whose number the journal has given, to it or to another, once that can be
      acknowledged. */
  lemma TakenNumbersArePassed(cfg: Config, st: Runtime, entries: seq<Commit>, faults: seq<Fault>, i: nat)
    requires i < |entries| && ValidCommit(entries[i]) && entries[i].record.sequence <= |st.journal.commits|
    requires FaultAt(faults, 2 * i) == Works && FaultAt(faults, 2 * i + 1) == Works
    ensures var c := entries[i];
      ReplayFrom(cfg, st, entries, faults, i)
      == ReplayFrom(cfg, if c.record.sequence > st.head.sequence then Advance(st, c.record) else st, entries, faults, i + 1)
  {
    hide ValidCommit, Advance;
    TakenNumber(st.journal, entries[i]);
    hide Append;
  }

  lemma TakenNumber(j: Journal, c: Commit)
    requires ValidCommit(c) && c.record.sequence <= |j.commits|
    ensures Append(j, c) == Ok(j) || Append(j, c) == Err(ReplayConflict)
  {
    FirstIsUnlinked(c);
    hide ValidCommit, ValidateCommit;
    ValidOrNot(c);
  }

  /** Without a fault that stands in the way the runtime writes where it should: the spool while it owes
      entries, the journal else, and the spool after the journal was found down. */
  lemma EventGoesSomewhere(cfg: Config, st: Runtime, event: Event, now: nat, faults: seq<Fault>)
    requires Inv(cfg, st) && event.eventID !in st.events && Persist(cfg, st, event, now, faults).1.Ok?
    ensures var st' := Persist(cfg, st, event, now, faults).0;
      if st'.spooling then st'.journal == st.journal && |st'.spool.items| == |st.spool.items| + 1
      else st'.spool == st.spool && |st'.journal.commits| == |st.journal.commits| + 1
  {
    AttemptGoesSomewhere(cfg, st, event, now, faults, 0);
    hide Inv, Attempt;
  }

  lemma {:induction false} AttemptGoesSomewhere(cfg: Config, st: Runtime, event: Event, now: nat, faults: seq<Fault>, k: nat)
    requires Inv(cfg, st) && event.eventID !in st.events && k <= 8 && Attempt(cfg, st, event, now, faults, k).1.Ok?
    ensures var st' := Attempt(cfg, st, event, now, faults, k).0;
      if st'.spooling then st'.journal == st.journal && |st'.spool.items| == |st.spool.items| + 1
      else st'.spool == st.spool && |st'.journal.commits| == |st.journal.commits| + 1
    decreases 8 - k
  {
    hide Tracked, MakeCommit, Replicated, Fingerprinted, Append, Put, TailOf, ChainOf;
    if k < 8 && MakeCommit(cfg, st.head, event, now).Ok? {
      var c := MakeCommit(cfg, st.head, event, now).value;
      MadeCommit(cfg, st.head, event, now);
      if st.spooling {
        if Put(st.spool, c).Ok? {
          FreshIsPut(cfg, st, event, c);
        }
      } else {
        JournalStep(cfg, st, event, c);
        if Append(st.journal, c).Ok? { FreshIsAppended(cfg, st, event, c); }
        if FaultAt(faults, k) == Down && cfg.hasSpool && cfg.spoolDurable {
          SpoolingIsGood(cfg, st);
          AttemptGoesSomewhere(cfg, st.(spooling := true), event, now, faults, k + 1);
        }
      }
    }
  }

  lemma FreshIsPut(cfg: Config, st: Runtime, event: Event, c: Commit)
    requires Inv(cfg, st) && event.eventID !in st.events && c.record == NextRecord(st.head, event) && Put(st.spool, c).Ok?
    ensures |Put(st.spool, c).value.items| == |st.spool.items| + 1
  {
    hide Verified, UniqueIDs, Knows, ValidCommit, Replicated, TailOf;
    FreshToSpool(st, event.eventID);
  }

  lemma FreshIsAppended(cfg: Config, st: Runtime, event: Event, c: Commit)
    requires Inv(cfg, st) && !st.spooling && event.eventID !in st.events && c.record == NextRecord(st.head, event)
    requires Append(st.journal, c).Ok?
    ensures |Append(st.journal, c).value.commits| == |st.journal.commits| + 1
  {
    hide ValidCommit, Replicated, Fingerprinted, Append, TailOf, Tracked;
    assert Chain(st) == st.journal.commits;
    JournalAccepts(st, event, c);
  }
}
