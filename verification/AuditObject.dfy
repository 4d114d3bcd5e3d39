/** Journal, spool and runtime as the mutable objects they are, each method proved
    to be the step on values of the same name. */
module AuditObject {
  import opened Wrappers
  import opened AuditChain
  import Spec = AuditRuntime

  /** verifyCommits. */
  method VerifyCommits(cs: seq<Commit>) returns (r: Status)
    ensures r == if Verified(cs) then Pass else Fail(CorruptChain)
  {
    hide ValidCommit;
    var previous := NoHash;
    var i := 0;
    while i < |cs|
      invariant 0 <= i <= |cs| && previous == LastHash(cs[..i])
      invariant forall k: nat | k < i :: Linked(cs, k)
    {
      if cs[i].record.sequence != i + 1 || cs[i].record.previousHash != previous || !ValidCommit(cs[i]) {
        assert !Linked(cs, i);
        return Fail(CorruptChain);
      }
      previous := cs[i].record.hash;
      i := i + 1;
    }
    r := Pass;
  }

  class MemoryJournal {
    var commits: seq<Commit>
    var outbox: map<DeliveryID, Delivery>

    function View(): Journal
      reads this
    {
      Journal(commits, outbox)
    }

    constructor ()
      ensures View() == Journal([], map[])
    {
      commits, outbox := [], map[];
    }

    method Append(c: Commit, fault: Spec.Fault) returns (r: Status)
      modifies this
      ensures match Spec.JournalAppend(old(View()), c, fault)
              case Ok(j) => r == Pass && View() == j
              case Err(e) => r == Fail(e) && View() == old(View())
    {
      hide ValidateCommit;
      if fault == Spec.Down {
        return Fail(Unavailable);
      }
      if fault == Spec.Broken {
        return Fail(Canceled);
      }
      var checked := ValidateCommit(c);
      if checked.Fail? {
        return checked;
      }
      var n := c.record.sequence;
      if n <= |commits| {
        return if n > 0 && commits[n - 1] == c then Pass else Fail(ReplayConflict);
      }
      if n != |commits| + 1 {
        return Fail(SequenceConflict);
      }
      if |commits| > 0 && c.record.previousHash != commits[|commits| - 1].record.hash {
        return Fail(SequenceConflict);
      }
      var known := Contains(commits, c.record.event.eventID);
      if known {
        return Fail(ReplayConflict);
      }
      var clash := Clashes(outbox, c.outbox);
      if clash {
        return Fail(OutboxConflict);
      }
      commits := commits + [c];
      outbox := Queue(outbox, c.outbox);
      r := Pass;
    }
  }

  method Contains(cs: seq<Commit>, id: string) returns (found: bool)
    ensures found == HasEvent(cs, id)
  {
    for i := 0 to |cs|
      invariant forall k | 0 <= k < i :: cs[k].record.event.eventID != id
    {
      if cs[i].record.event.eventID == id {
        return true;
      }
    }
    return false;
  }

  method Clashes(outbox: map<DeliveryID, Delivery>, ds: seq<Delivery>) returns (clash: bool)
    ensures clash == OutboxClash(outbox, ds)
  {
    for i := 0 to |ds|
      invariant forall k | 0 <= k < i :: !(ds[k].deliveryID in outbox && outbox[ds[k].deliveryID] != ds[k])
    {
      if ds[i].deliveryID in outbox && outbox[ds[i].deliveryID] != ds[i] {
        return true;
      }
    }
    return false;
  }

  method Queue(outbox: map<DeliveryID, Delivery>, ds: seq<Delivery>) returns (out: map<DeliveryID, Delivery>)
    ensures out == Enqueue(outbox, ds)
  {
    out := outbox;
    for i := 0 to |ds|
      invariant out == Enqueue(outbox, ds[..i])
    {
      assert ds[..i + 1][..i] == ds[..i];
      out := out[ds[i].deliveryID := ds[i]];
    }
    assert ds[..|ds|] == ds;
  }

  class MemorySpool {
    var items: seq<Commit>
    var fingerprints: map<string, Commit>

    function View(): Spool
      reads this
    {
      Spool(items, fingerprints)
    }

    constructor ()
      ensures View() == Spool([], map[])
    {
      items, fingerprints := [], map[];
    }

    method Put(c: Commit, fault: Spec.Fault) returns (r: Status)
      modifies this
      ensures match Spec.SpoolPut(old(View()), c, fault)
              case Ok(s) => r == Pass && View() == s
              case Err(e) => r == Fail(e) && View() == old(View())
    {
      hide ValidCommit;
      if fault != Spec.Works {
        return Fail(Canceled);
      }
      if !ValidCommit(c) {
        return Fail(SpoolCorrupt);
      }
      var id := c.record.event.eventID;
      if id in fingerprints {
        return if fingerprints[id] == c then Pass else Fail(ReplayConflict);
      }
      items := items + [c];
      fingerprints := fingerprints[id := c];
      r := Pass;
    }
  }

  class LiveRuntime {
    const cfg: Spec.Config
    const journal: MemoryJournal
    const spool: MemorySpool
    var head: Record
    var events: map<string, Record>
    var spooling: bool

    function View(): Spec.Runtime
      reads this, journal, spool
    {
      Spec.Runtime(journal.View(), spool.View(), head, events, spooling)
    }

    /** NewRuntime over a journal that verified. */
    constructor (cfg: Spec.Config, journal: MemoryJournal, spool: MemorySpool)
      ensures this.cfg == cfg && this.journal == journal && this.spool == spool
      ensures View() == Spec.Open(cfg, journal.View(), spool.View())
    {
      this.cfg, this.journal, this.spool := cfg, journal, spool;
      spooling := !cfg.journalDurable && cfg.hasSpool;
      head := Spec.HeadOf(journal.commits);
      events := map[];
      new;
      for i := 0 to |journal.commits|
        invariant events == Spec.Learned(journal.commits[..i])
        invariant head == Spec.HeadOf(journal.commits) && spooling == (!cfg.journalDurable && cfg.hasSpool)
      {
        assert journal.commits[..i + 1][..i] == journal.commits[..i];
        events := events[journal.commits[i].record.event.eventID := journal.commits[i].record];
      }
      assert journal.commits[..|journal.commits|] == journal.commits;
    }

    method Persist(event: Event, now: nat, faults: seq<Spec.Fault>) returns (r: Result<Record>)
      modifies this, journal, spool
      ensures (View(), r) == Spec.Persist(cfg, old(View()), event, now, faults)
    {
      hide Spec.MakeCommit, Append, Put;
      if event.eventID in events {
        var prior := events[event.eventID];
        return if prior.event == event then Ok(prior) else Err(ReplayConflict);
      }
      var k := 0;
      while k < 8
        invariant 0 <= k <= 8
        invariant Spec.Attempt(cfg, View(), event, now, faults, k)
               == Spec.Attempt(cfg, old(View()), event, now, faults, 0)
      {
        var made := Spec.MakeCommit(cfg, head, event, now);
        if made.Err? {
          return Err(made.error);
        }
        var c := made.value;
        if spooling {
          if !cfg.hasSpool || (!cfg.spoolDurable && event.class_ == Critical) {
            return Err(NoDurableChannel);
          }
          var put := spool.Put(c, Spec.FaultAt(faults, k));
          if put.Fail? {
            return Err(put.error);
          }
          head, events := c.record, events[c.record.event.eventID := c.record];
          return Ok(c.record);
        }
        var appended := journal.Append(c, Spec.FaultAt(faults, k));
        if appended.Pass? {
          head, events := c.record, events[c.record.event.eventID := c.record];
          return Ok(c.record);
        }
        if appended.error == SequenceConflict {
          head := Spec.HeadOf(journal.commits);
        } else if appended.error == Unavailable && cfg.hasSpool && cfg.spoolDurable {
          spooling := true;
        } else {
          return Err(appended.error);
        }
        k := k + 1;
      }
      r := Err(SequenceConflict);
    }

    method Replay(faults: seq<Spec.Fault>) returns (r: Status)
      modifies this, journal
      ensures (View(), r) == Spec.Replay(cfg, old(View()), faults)
    {
      hide Append, ValidCommit;
      if !cfg.hasSpool {
        return Pass;
      }
      var entries := spool.items;
      var i := 0;
      while i < |entries|
        invariant 0 <= i <= |entries| && spool.View() == old(spool.View())
        invariant Spec.ReplayFrom(cfg, View(), entries, faults, i)
               == Spec.ReplayFrom(cfg, old(View()), entries, faults, 0)
      {
        var c := entries[i];
        if !ValidCommit(c) {
          return Fail(SpoolCorrupt);
        }
        var appended := journal.Append(c, Spec.FaultAt(faults, 2 * i));
        if appended.Fail? && appended.error != ReplayConflict {
          return appended;
        }
        if c.record.sequence > head.sequence {
          head, events := c.record, events[c.record.event.eventID := c.record];
        }
        if cfg.journalDurable && Spec.FaultAt(faults, 2 * i + 1) != Spec.Works {
          return Fail(Canceled);
        }
        i := i + 1;
      }
      spooling := !cfg.journalDurable;
      r := Pass;
    }
  }
}
