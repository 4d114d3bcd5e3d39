/** Restart: a fresh gate that restores every request from the ledger succeeds,
    satisfies the whole gate invariant again, and answers every later call as the
    gate that wrote the ledger would have. */
module GateRestart {
  import opened Wrappers
  import opened ApprovalTypes
  import opened ApprovalRules
  import opened ApprovalLedger
  import opened ApprovalGate
  import opened GateInvariant
  import opened GateWrites
  import opened GateSafety

  // ----- events up to their place in a log

  /** An event without its number and hashes. */
  ghost function Bare(e: AuditEvent): AuditEvent {
    e.(sequence := 0, previousHash := NoHash, hash := NoHash)
  }

  ghost predicate Similar(es1: seq<AuditEvent>, es2: seq<AuditEvent>) {
    |es1| == |es2| && forall i | 0 <= i < |es1| :: Bare(es1[i]) == Bare(es2[i])
  }

  lemma {:induction false} SealOfSimilar(es1: seq<AuditEvent>, es2: seq<AuditEvent>)
    requires Similar(es1, es2)
    ensures Seal(es1) == Seal(es2)
  {
    if es1 != [] {
      var n := |es1| - 1;
      SealOfSimilar(es1[..n], es2[..n]);
      var e1, e2 := es1[n], es2[n];
      assert Bare(e1) == Bare(e2);
      assert e1.(sequence := n + 1, previousHash := NoHash, hash := NoHash)
          == e2.(sequence := n + 1, previousHash := NoHash, hash := NoHash);
    }
  }

  lemma RenumberedSealIsSimilar(events: seq<AuditEvent>, from: nat)
    ensures Similar(Renumber(Seal(events), from), events)
  {
    forall i | 0 <= i < |events|
      ensures Bare(Renumber(Seal(events), from)[i]) == Bare(events[i])
    {
      SealedAt(events, i);
    }
  }

  // ----- where a request's events are

  lemma {:induction false} EventsOfHolds(audit: seq<AuditEvent>, id: string, i: nat)
    requires i < |audit| && audit[i].requestID == id
    ensures var p := |EventsOf(audit[..i], id)|;
      p < |EventsOf(audit, id)| && EventsOf(audit, id)[p] == audit[i]
  {
    var n := |audit| - 1;
    if i < n {
      EventsOfHolds(audit[..n], id, i);
      assert audit[..n][..i] == audit[..i];
    }
  }

  lemma {:induction false} EventsOfComesFrom(audit: seq<AuditEvent>, id: string, p: nat) returns (i: nat)
    requires p < |EventsOf(audit, id)|
    ensures i < |audit| && audit[i].requestID == id && EventsOf(audit, id)[p] == audit[i]
    ensures p == |EventsOf(audit[..i], id)|
  {
    var n := |audit| - 1;
    if p < |EventsOf(audit[..n], id)| {
      i := EventsOfComesFrom(audit[..n], id, p);
      assert audit[..n][..i] == audit[..i];
    } else {
      i := n;
    }
  }

  lemma {:induction false} EventsOfMonotone(audit: seq<AuditEvent>, id: string, i: nat, j: nat)
    requires i <= j <= |audit|
    ensures |EventsOf(audit[..i], id)| <= |EventsOf(audit[..j], id)|
    decreases j - i
  {
    if i < j {
      EventsOfMonotone(audit, id, i, j - 1);
      assert audit[..j][..j - 1] == audit[..j - 1];
    }
  }

  // ----- a partly restored gate

  ghost function Share(w: World, restored: set<string>, id: string): seq<AuditEvent> {
    if id in restored then EventsOf(w.gate.audit, id) else []
  }

  /** g is what w's gate looks like to somebody who has restored only these requests. */
  ghost predicate Partial(g: Gate, w: World, restored: set<string>) {
    && g.policyEpoch == w.gate.policyEpoch
    && g.requests.Keys == restored && restored <= w.gate.requests.Keys
    && (forall id | id in restored :: g.requests[id] == w.gate.requests[id])
    && (forall id: string :: Similar(EventsOf(g.audit, id), Share(w, restored, id)))
    && (forall id: string :: DurableSequence(g, id) == |Share(w, restored, id)|)
    && EventsBelong(g) && UsedMatchesLog(g) && OwnersMatchLog(g)
    && g.usedIDs <= w.gate.usedIDs
    && (forall x | x in g.owners :: x in w.gate.owners && g.owners[x] == w.gate.owners[x])
  }

  /** The restored events of one request. */
  ghost predicate RestoredEvents(w: World, id: string, added: seq<AuditEvent>)
    requires id in w.gate.requests
  {
    && added != [] && Similar(added, EventsOf(w.gate.audit, id))
    && forall i | 0 <= i < |added| ::
         && NamedID(added[i]) && added[i].requestID == id
         && BoundTo(added[i], w.gate.requests[id].request)
         && (added[i].kind == Authorized ==> added[i].confirmationID in w.gate.usedIDs)
         && (added[i].kind == Checkpoint ==>
               added[i].confirmationID in w.gate.owners && w.gate.owners[added[i].confirmationID] == id)
  }

  lemma LedgerEventsAreRestored(w: World, clock: Time, id: string, from: nat)
    requires Inv(w, clock) && w.ledger.Some? && id in w.gate.requests
    ensures RestoredEvents(w, id, Renumber(w.ledger.value.records[id].events, from))
  {
    hide GoodRecord, Trail, Key, Seal, EventsOf, BoundTo, RecordsGood;
    assert MirrorsRequest(w.gate, w.ledger.value, id);
    var E := EventsOf(w.gate.audit, id);
    RenumberedSealIsSimilar(E, from);
    var added := Renumber(Seal(E), from);
    forall i | 0 <= i < |added|
      ensures NamedID(added[i]) && added[i].requestID == id
      ensures BoundTo(added[i], w.gate.requests[id].request)
      ensures added[i].kind == Authorized ==> added[i].confirmationID in w.gate.usedIDs
      ensures added[i].kind == Checkpoint ==>
               added[i].confirmationID in w.gate.owners && w.gate.owners[added[i].confirmationID] == id
    {
      var k := EventsOfComesFrom(w.gate.audit, id, i);
      SimilarEvent(added[i], w.gate.audit[k], w.gate.requests[id].request);
    }
  }

  lemma SimilarEvent(e1: AuditEvent, e2: AuditEvent, req: Request)
    requires Bare(e1) == Bare(e2)
    ensures e1.kind == e2.kind && e1.confirmationID == e2.confirmationID && e1.requestID == e2.requestID
    ensures e1.actor == e2.actor && e1.at == e2.at
    ensures BoundTo(e1, req) <==> BoundTo(e2, req)
  {
    assert Bare(e1).kind == Bare(e2).kind;
  }

  /** One more record goes in, and nothing already restored is disturbed. */
  lemma RestoreStep(g: Gate, w: World, restored: set<string>, id: string, clock: Time)
    requires Inv(w, clock) && w.ledger.Some? && Partial(g, w, restored)
    requires id in w.gate.requests && id !in restored
    ensures RestoreRecord(g, w.ledger.value, id).Ok?
    ensures Partial(RestoreRecord(g, w.ledger.value, id).value, w, restored + {id})
  {
    hide GateOK, Mirrors, Partial;
    RestoreRecordSucceeds(g, w, restored, id, clock);
    var added := Renumber(w.ledger.value.records[id].events, g.sequence);
    LedgerEventsAreRestored(w, clock, id, g.sequence);
    PartialGrows(g, w, restored, id, added, RestoreRecord(g, w.ledger.value, id).value, clock);
  }

  /** What RestoreRecord computes when it succeeds. */
  ghost predicate Restored(g: Gate, w: World, id: string, added: seq<AuditEvent>, g': Gate)
    requires id in w.gate.requests
  {
    && g'.policyEpoch == g.policyEpoch && g'.requests == g.requests[id := w.gate.requests[id]]
    && g'.usedIDs == RestoreIDs(g.usedIDs, added) && g'.owners == RestoreOwners(g.owners, id, added)
    && g'.audit == g.audit + added && g'.durable == g.durable[id := |added|]
  }

  lemma RestoreRecordSucceeds(g: Gate, w: World, restored: set<string>, id: string, clock: Time)
    requires Inv(w, clock) && w.ledger.Some? && Partial(g, w, restored)
    requires id in w.gate.requests && id !in restored
    ensures id in w.ledger.value.records && RestoreRecord(g, w.ledger.value, id).Ok?
    ensures Restored(g, w, id, Renumber(w.ledger.value.records[id].events, g.sequence),
                     RestoreRecord(g, w.ledger.value, id).value)
  {
    hide GateOK, Mirrors, EventsBelong, UsedMatchesLog, OwnersMatchLog, EventsOf, Similar, Load,
      ValidateRecord, RestoreIDs, RestoreOwners, EventsBound;
    StoredEntry(w, clock, id);
    LoadSucceeds(w, clock, id);
  }

  lemma StoredEntry(w: World, clock: Time, id: string)
    requires Inv(w, clock) && w.ledger.Some? && id in w.gate.requests
    ensures id in w.ledger.value.records
    ensures var r, entry := w.gate.requests[id], w.ledger.value.records[id];
      && entry.record == r && r.id == id && r.request.policyEpoch == w.gate.policyEpoch
      && ValidateRecord(r).Pass? && entry.events != [] && EventsBound(r, entry.events)
  {
    hide Trail, Key, EventsOf, SoundApproval, SoundConfirmation, AutoApproved, UsedMatchesLog,
      OwnersMatchLog, EventsBelong, ValidateRecord, Seal;
    assert MirrorsRequest(w.gate, w.ledger.value, id);
    var r, events := w.gate.requests[id], w.ledger.value.records[id].events;
    LedgerEventsAreRestored(w, clock, id, 0);
    forall i | 0 <= i < |events|
      ensures BoundTo(events[i], r.request)
    {
      assert BoundTo(Renumber(events, 0)[i], r.request);
      SimilarEvent(Renumber(events, 0)[i], events[i], r.request);
    }
    GoodRecordID(r, w.gate.policyEpoch, clock);
  }

  lemma LoadSucceeds(w: World, clock: Time, id: string)
    requires Inv(w, clock) && w.ledger.Some? && id in w.gate.requests
    ensures Load(w.ledger.value, id, w.gate.policyEpoch) == Ok(w.ledger.value.records[id])
  {
    hide Trail, Key, EventsOf, SoundApproval, SoundConfirmation, AutoApproved, Seal, UsedMatchesLog,
      OwnersMatchLog;
    assert MirrorsRequest(w.gate, w.ledger.value, id);
    var r, E := w.gate.requests[id], EventsOf(w.gate.audit, id);
    GoodRecordID(r, w.gate.policyEpoch, clock);
    hide ValidateRecord;
    forall i | 0 <= i < |E|
      ensures BoundTo(E[i], r.request)
    {
      var k := EventsOfComesFrom(w.gate.audit, id, i);
    }
    SealIsPersistedChain(r, E);
    hide PersistedChain, BoundTo;
  }

  lemma PartialGrows(g: Gate, w: World, restored: set<string>, id: string, added: seq<AuditEvent>, g': Gate,
                     clock: Time)
    requires Partial(g, w, restored) && id in w.gate.requests && id !in restored
    requires RestoredEvents(w, id, added) && Restored(g, w, id, added, g')
    ensures Partial(g', w, restored + {id})
  {
    hide EventsOf, UsedMatchesLog, OwnersMatchLog, EventsBelong, RestoreIDs, RestoreOwners,
      RestoredEvents, Similar, Share, DurableSequence;
    SharesGrow(g, w, restored, id, added, g');
    EventsBelongGrow(g, w, restored, id, added, g');
    SetsGrow(g, w, restored, id, added, g');
  }

  lemma SharesGrow(g: Gate, w: World, restored: set<string>, id: string, added: seq<AuditEvent>, g': Gate)
    requires Partial(g, w, restored) && id in w.gate.requests && id !in restored
    requires RestoredEvents(w, id, added) && Restored(g, w, id, added, g')
    ensures forall x: string :: Similar(EventsOf(g'.audit, x), Share(w, restored + {id}, x))
    ensures forall x: string :: DurableSequence(g', x) == |Share(w, restored + {id}, x)|
  {
    hide EventsOf, BoundTo, Bare, NamedID, UsedMatchesLog, OwnersMatchLog, EventsBelong, RestoreIDs, RestoreOwners;
    forall x: string
      ensures Similar(EventsOf(g'.audit, x), Share(w, restored + {id}, x))
      ensures DurableSequence(g', x) == |Share(w, restored + {id}, x)|
    {
      assert DurableSequence(g, x) == |Share(w, restored, x)|;
      EventsOfAppend(g.audit, added, x, id);
      assert Similar(EventsOf(g.audit, x), Share(w, restored, x));
      if x == id { assert EventsOf(g.audit, x) == [] && EventsOf(g'.audit, x) == added; }
    }
  }

  lemma EventsBelongGrow(g: Gate, w: World, restored: set<string>, id: string, added: seq<AuditEvent>, g': Gate)
    requires Partial(g, w, restored) && id in w.gate.requests && id !in restored
    requires RestoredEvents(w, id, added) && Restored(g, w, id, added, g')
    ensures EventsBelong(g')
  {
    hide EventsOf, BoundTo, Similar, NamedID, UsedMatchesLog, OwnersMatchLog, RestoreIDs, RestoreOwners;
    forall i | 0 <= i < |g'.audit|
      ensures NamedID(g'.audit[i]) && g'.audit[i].requestID in g'.requests
      ensures BoundTo(g'.audit[i], g'.requests[g'.audit[i].requestID].request)
    {
      if i < |g.audit| { assert g'.audit[i] == g.audit[i]; }
      else { assert g'.audit[i] == added[i - |g.audit|]; }
    }
  }

  lemma SetsGrow(g: Gate, w: World, restored: set<string>, id: string, added: seq<AuditEvent>, g': Gate)
    requires Partial(g, w, restored) && id in w.gate.requests && id !in restored
    requires RestoredEvents(w, id, added) && Restored(g, w, id, added, g')
    ensures UsedMatchesLog(g') && OwnersMatchLog(g')
    ensures g'.usedIDs <= w.gate.usedIDs
    ensures forall x | x in g'.owners :: x in w.gate.owners && g'.owners[x] == w.gate.owners[x]
  {
    RestoredSets(g, w, id, added, g');
    UsedFollowsLog(g, g', id, added);
    OwnersFollowLog(g, g', id, added);
    hide EventsOf, BoundTo, Similar, UsedMatchesLog, OwnersMatchLog, EventsBelong, NamedID, SetsFollow;
  }

  lemma RestoredSets(g: Gate, w: World, id: string, added: seq<AuditEvent>, g': Gate)
    requires id in w.gate.requests && RestoredEvents(w, id, added) && Restored(g, w, id, added, g')
    requires forall x | x in g.owners :: x in w.gate.owners && g.owners[x] == w.gate.owners[x]
    ensures SetsFollow(g, g', id, added)
  {
    hide BoundTo, Similar;
    forall i | 0 <= i < |added| && added[i].kind == Authorized
      ensures added[i].confirmationID in g'.usedIDs
    {
      assert added[i] in added;
    }
    forall x | x in g'.usedIDs && x !in g.usedIDs
      ensures exists i :: 0 <= i < |added| && UsesID(added[i], x)
    {
      var e :| e in added && e.kind == Authorized && e.confirmationID == x;
      var i :| 0 <= i < |added| && added[i] == e;
      assert UsesID(added[i], x);
    }
    forall i | 0 <= i < |added| && added[i].kind == Checkpoint
      ensures added[i].confirmationID in g'.owners && g'.owners[added[i].confirmationID] == id
    {
      assert added[i] in added;
    }
    forall x | x in g'.owners && x !in g.owners
      ensures exists i :: 0 <= i < |added| && ReservesID(added[i], x)
    {
      var e :| e in added && e.kind == Checkpoint && e.confirmationID == x;
      var i :| 0 <= i < |added| && added[i] == e;
      assert ReservesID(added[i], x);
    }
  }

  // ----- the whole restore

  ghost predicate Distinct(ids: seq<string>) {
    forall i, j | 0 <= i < j < |ids| :: ids[i] != ids[j]
  }

  ghost function Elements(ids: seq<string>): set<string> { set x | x in ids }

  lemma {:induction false} RestoreFrom(g: Gate, w: World, restored: set<string>, ids: seq<string>, clock: Time)
    requires Inv(w, clock) && w.ledger.Some? && Partial(g, w, restored) && Distinct(ids)
    requires forall x | x in ids :: x in w.gate.requests && x !in restored
    ensures RestoreAll(g, w.ledger.value, ids).Ok?
    ensures Partial(RestoreAll(g, w.ledger.value, ids).value, w, restored + Elements(ids))
    decreases |ids|
  {
    hide Inv, Partial, RestoreRecord;
    if ids == [] {
      assert restored + Elements(ids) == restored;
    } else {
      assert ids[0] in ids;
      RestoreStep(g, w, restored, ids[0], clock);
      RestoreFrom(RestoreRecord(g, w.ledger.value, ids[0]).value, w, restored + {ids[0]}, ids[1..], clock);
      assert ids == [ids[0]] + ids[1..];
      assert restored + {ids[0]} + Elements(ids[1..]) == restored + Elements(ids);
    }
  }

  lemma FreshIsPartial(w: World)
    ensures Partial(NewGate(w.gate.policyEpoch), w, {})
  {
  }

  /** Two gates nobody can tell apart from their answers. */
  ghost predicate SameFace(g1: Gate, g2: Gate) {
    && g1.policyEpoch == g2.policyEpoch && g1.requests == g2.requests
    && g1.usedIDs == g2.usedIDs && g1.owners == g2.owners
    && forall id: string :: DurableSequence(g1, id) == DurableSequence(g2, id)
  }

  /** Every event of the old log survives in the restored one. */
  lemma EventSurvives(g: Gate, w: World, i: nat) returns (k: nat)
    requires EventsBelong(w.gate) && Partial(g, w, w.gate.requests.Keys) && i < |w.gate.audit|
    ensures k < |g.audit| && Bare(g.audit[k]) == Bare(w.gate.audit[i])
  {
    hide EventsOf, BoundTo, Bare, NamedID, UsedMatchesLog, OwnersMatchLog;
    var id := w.gate.audit[i].requestID;
    EventsOfHolds(w.gate.audit, id, i);
    var p := |EventsOf(w.gate.audit[..i], id)|;
    assert Similar(EventsOf(g.audit, id), Share(w, w.gate.requests.Keys, id));
    k := EventsOfComesFrom(g.audit, id, p);
    assert Bare(EventsOf(g.audit, id)[p]) == Bare(EventsOf(w.gate.audit, id)[p]);
  }

  lemma UsedIDSurvives(g: Gate, w: World, x: string)
    requires EventsBelong(w.gate) && UsedMatchesLog(w.gate) && Partial(g, w, w.gate.requests.Keys)
    requires x in w.gate.usedIDs
    ensures x in g.usedIDs
  {
    hide EventsOf, Similar, BoundTo, OwnersMatchLog, EventsBelong;
    var i: nat :| i < |w.gate.audit| && UsesID(w.gate.audit[i], x);
    var k := EventSurvives(g, w, i);
    SimilarEvent(g.audit[k], w.gate.audit[i], NO_RECORD.request);
  }

  lemma ReservationSurvives(g: Gate, w: World, x: string)
    requires EventsBelong(w.gate) && OwnersMatchLog(w.gate) && Partial(g, w, w.gate.requests.Keys)
    requires x in w.gate.owners
    ensures x in g.owners
  {
    hide EventsOf, Similar, BoundTo, UsedMatchesLog, EventsBelong;
    var i: nat :| i < |w.gate.audit| && ReservesID(w.gate.audit[i], x);
    var k := EventSurvives(g, w, i);
    SimilarEvent(g.audit[k], w.gate.audit[i], NO_RECORD.request);
  }

  lemma SetsSurvive(g: Gate, w: World, clock: Time)
    requires GateOK(w.gate, clock) && Partial(g, w, w.gate.requests.Keys)
    ensures g.usedIDs == w.gate.usedIDs && g.owners == w.gate.owners
  {
    hide RecordsGood, EventsOf, Similar, UsedMatchesLog, OwnersMatchLog, EventsBelong;
    forall x | x in w.gate.usedIDs
      ensures x in g.usedIDs
    {
      UsedIDSurvives(g, w, x);
    }
    forall x | x in w.gate.owners
      ensures x in g.owners
    {
      ReservationSurvives(g, w, x);
    }
  }

  lemma FullIsSameFace(g: Gate, w: World, clock: Time)
    requires Inv(w, clock) && w.ledger.Some? && Partial(g, w, w.gate.requests.Keys)
    ensures SameFace(g, w.gate)
  {
    hide RecordsGood, EventsOf, BoundTo, Key, Stored, UsedMatchesLog, OwnersMatchLog, Similar;
    SetsSurvive(g, w, clock);
    forall id: string
      ensures DurableSequence(g, id) == DurableSequence(w.gate, id)
    {
      if id !in w.gate.requests { NoEventsOf(w.gate.audit, id); }
      assert DurableSequence(g, id) == |Share(w, w.gate.requests.Keys, id)|;
    }
  }

  // ----- the restored gate is good again

  lemma CheckpointSurvives(audit1: seq<AuditEvent>, audit2: seq<AuditEvent>, r: Record, n: nat, m: nat)
    requires n <= |audit1| && m <= |audit2| && r.request.id == r.id
    requires Similar(EventsOf(audit1, r.id), EventsOf(audit2, r.id))
    requires |EventsOf(audit1[..n], r.id)| <= |EventsOf(audit2[..m], r.id)|
    requires CheckpointBefore(audit1, n, r)
    ensures CheckpointBefore(audit2, m, r)
  {
    hide EventsOf, BoundTo, Bare;
    var i: nat :| i < n && IsCheckpointFor(audit1[i], r);
    CheckpointEventID(audit1[i], r);
    var p := |EventsOf(audit1[..i], r.id)|;
    EventsOfHolds(audit1, r.id, i);
    PositionBelow(audit1, r.id, i, n);
    var k := EventsOfComesFrom(audit2, r.id, p);
    if m <= k { EventsOfMonotone(audit2, r.id, m, k); }
    SimilarEvent(audit1[i], audit2[k], r.request);
    assert IsCheckpointFor(audit2[k], r);
  }

  lemma CheckpointEventID(e: AuditEvent, r: Record)
    requires r.request.id == r.id && BoundTo(e, r.request)
    ensures e.requestID == r.id
  {
  }

  lemma PositionBelow(audit: seq<AuditEvent>, id: string, i: nat, n: nat)
    requires i < n <= |audit| && audit[i].requestID == id
    ensures |EventsOf(audit[..i], id)| < |EventsOf(audit[..n], id)|
  {
    assert audit[..i + 1][..i] == audit[..i];
    EventsOfMonotone(audit, id, i + 1, n);
  }

  lemma TrailSurvives(audit1: seq<AuditEvent>, audit2: seq<AuditEvent>, r: Record)
    requires Trail(audit1, r) && r.request.id == r.id
    requires Similar(EventsOf(audit1, r.id), EventsOf(audit2, r.id))
    ensures Trail(audit2, r)
  {
    hide EventsOf, BoundTo, Bare, CheckpointBefore, Similar;
    assert audit1[..|audit1|] == audit1 && audit2[..|audit2|] == audit2;
    if Sensitive(r.request) && r.confirmation.confirmationID != "" {
      SimilarLength(EventsOf(audit1, r.id), EventsOf(audit2, r.id));
      CheckpointSurvives(audit1, audit2, r, |audit1|, |audit2|);
    }
    if r.commit.Some? {
      var j: nat :| j < |audit1| && IsAuthorizationFor(audit1[j], r)
        && (Sensitive(r.request) ==> CheckpointBefore(audit1, j, r));
      CheckpointEventID(audit1[j], r);
      EventsOfHolds(audit1, r.id, j);
      SimilarLength(EventsOf(audit1, r.id), EventsOf(audit2, r.id));
      var p := |EventsOf(audit1[..j], r.id)|;
      var k := EventsOfComesFrom(audit2, r.id, p);
      SimilarAt(EventsOf(audit1, r.id), EventsOf(audit2, r.id), p);
      SimilarEvent(audit1[j], audit2[k], r.request);
      assert IsAuthorizationFor(audit2[k], r);
      if Sensitive(r.request) { CheckpointSurvives(audit1, audit2, r, j, k); }
    }
  }

  lemma SimilarLength(es1: seq<AuditEvent>, es2: seq<AuditEvent>)
    requires Similar(es1, es2)
    ensures |es1| == |es2|
  {
  }

  lemma SimilarAt(es1: seq<AuditEvent>, es2: seq<AuditEvent>, p: nat)
    requires Similar(es1, es2) && p < |es1|
    ensures p < |es2| && Bare(es1[p]) == Bare(es2[p])
  {
  }

  lemma FullIsGood(g: Gate, w: World, clock: Time)
    requires GateOK(w.gate, clock) && Partial(g, w, w.gate.requests.Keys)
    ensures GateOK(g, clock)
  {
    hide Trail, EventsOf, BoundTo, ValidateRecord, SoundConfirmation, SoundApproval, AutoApproved,
      EventsBelong, UsedMatchesLog, OwnersMatchLog;
    forall id | id in g.requests
      ensures Trail(g.audit, g.requests[id])
    {
      var r := g.requests[id];
      assert Similar(EventsOf(g.audit, id), Share(w, w.gate.requests.Keys, id));
      assert GoodRecord(r, w.gate.policyEpoch, clock);
      GoodRecordID(r, w.gate.policyEpoch, clock);
      TrailSurvives(w.gate.audit, g.audit, r);
    }
  }

  lemma FullMirrors(g: Gate, w: World, clock: Time)
    requires Inv(w, clock) && w.ledger.Some? && Partial(g, w, w.gate.requests.Keys)
    ensures Mirrors(g, w.ledger.value)
  {
    hide GoodRecord, RecordsGood, EventsOf, BoundTo, Key, Seal, UsedMatchesLog, OwnersMatchLog, Similar,
      EventsBelong;
    FullIsSameFace(g, w, clock);
    forall id: string
      ensures DurableSequence(g, id) == |EventsOf(g.audit, id)|
    {
      assert Similar(EventsOf(g.audit, id), Share(w, w.gate.requests.Keys, id));
      SimilarLength(EventsOf(g.audit, id), Share(w, w.gate.requests.Keys, id));
      assert DurableSequence(g, id) == |Share(w, w.gate.requests.Keys, id)|;
    }
    forall id | id in g.requests
      ensures MirrorsRequest(g, w.ledger.value, id)
    {
      assert MirrorsRequest(w.gate, w.ledger.value, id);
      assert Similar(EventsOf(g.audit, id), Share(w, w.gate.requests.Keys, id));
      SimilarLength(EventsOf(g.audit, id), EventsOf(w.gate.audit, id));
      SealOfSimilar(EventsOf(g.audit, id), EventsOf(w.gate.audit, id));
    }
    forall id: string, n: nat | n > DurableSequence(g, id)
      ensures Key(id, n) !in w.ledger.value.idempotency
    {
      assert DurableSequence(g, id) == DurableSequence(w.gate, id);
    }
  }

  /** Restoring every request, in any order, always succeeds; the new gate has the same
      records, used IDs, reservations and counters, and satisfies the invariant again. */
  lemma RestartSucceeds(w: World, clock: Time, ids: seq<string>)
    requires Inv(w, clock) && w.ledger.Some? && Distinct(ids) && Elements(ids) == w.gate.requests.Keys
    ensures RestoreAll(NewGate(w.gate.policyEpoch), w.ledger.value, ids).Ok?
    ensures var g := RestoreAll(NewGate(w.gate.policyEpoch), w.ledger.value, ids).value;
      SameFace(g, w.gate) && Inv(World(g, w.ledger), clock)
  {
    hide Partial, GateOK, Mirrors, RestoreAll, SameFace;
    FreshIsPartial(w);
    forall x | x in ids
      ensures x in w.gate.requests
    {
      assert x in Elements(ids);
    }
    RestoreFrom(NewGate(w.gate.policyEpoch), w, {}, ids, clock);
    assert {} + Elements(ids) == w.gate.requests.Keys;
    var g := RestoreAll(NewGate(w.gate.policyEpoch), w.ledger.value, ids).value;
    FullIsSameFace(g, w, clock);
    FullIsGood(g, w, clock);
    FullMirrors(g, w, clock);
  }
}
