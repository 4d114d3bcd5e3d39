/** Every call keeps the gate invariant, so it holds after every run of calls,
    whatever the ledger refuses; and what that gives over whole runs. */
module GateSafety {
  import opened Wrappers
  import opened ApprovalTypes
  import opened ApprovalRules
  import opened ApprovalLedger
  import opened ApprovalGate
  import opened GateInvariant
  import opened GateWrites

  // ----- one change to the gate

  lemma TrailExtends(audit: seq<AuditEvent>, added: seq<AuditEvent>, r: Record)
    requires Trail(audit, r)
    ensures Trail(audit + added, r)
  {
    hide BoundTo;
    var longer := audit + added;
    if Sensitive(r.request) && r.confirmation.confirmationID != "" {
      var i :| 0 <= i < |audit| && IsCheckpointFor(audit[i], r);
      assert IsCheckpointFor(longer[i], r);
    }
    if r.commit.Some? {
      var j: nat :| j < |audit| && IsAuthorizationFor(audit[j], r)
        && (Sensitive(r.request) ==> CheckpointBefore(audit, j, r));
      assert IsAuthorizationFor(longer[j], r);
      if Sensitive(r.request) {
        var i :| 0 <= i < j && IsCheckpointFor(audit[i], r);
        assert IsCheckpointFor(longer[i], r);
      }
    }
  }

  ghost predicate SetsFollow(g: Gate, g': Gate, id: string, added: seq<AuditEvent>) {
    && g.usedIDs <= g'.usedIDs
    && (forall i | 0 <= i < |added| && added[i].kind == Authorized ::
          added[i].confirmationID in g'.usedIDs)
    && (forall x | x in g'.usedIDs && x !in g.usedIDs ::
          exists i :: 0 <= i < |added| && UsesID(added[i], x))
    && (forall x | x in g.owners :: x in g'.owners && g'.owners[x] == g.owners[x])
    && (forall i | 0 <= i < |added| && added[i].kind == Checkpoint ::
          added[i].confirmationID in g'.owners && g'.owners[added[i].confirmationID] == id)
    && (forall x | x in g'.owners && x !in g.owners ::
          exists i :: 0 <= i < |added| && ReservesID(added[i], x))
  }

  /** g' is g with request id moved to a good record and the move logged. */
  ghost predicate Moves(g: Gate, g': Gate, id: string, added: seq<AuditEvent>, now: Time) {
    && id in g'.requests && g'.requests[id].id == id && added != []
    && g'.policyEpoch == g.policyEpoch && g'.durable == g.durable
    && g'.requests == g.requests[id := g'.requests[id]]
    && (id in g.requests ==>
          && g.requests[id].request == g'.requests[id].request
          && g.requests[id].expiresAt == g'.requests[id].expiresAt)
    && GoodRecord(g'.requests[id], g.policyEpoch, now)
    && g'.audit == g.audit + added && Trail(g'.audit, g'.requests[id])
    && (forall i | 0 <= i < |added| :: NamedID(added[i]) && Issued(added[i], g'.requests[id]))
    && SetsFollow(g, g', id, added)
  }

  lemma RecordsFollow(g: Gate, g': Gate, id: string, added: seq<AuditEvent>, clock: Time, now: Time)
    requires RecordsGood(g, clock) && clock <= now && Moves(g, g', id, added, now)
    ensures RecordsGood(g', now)
  {
    hide ValidateRecord, SoundConfirmation, SoundApproval, AutoApproved, Trail, SetsFollow, Issued, NamedID;
    forall x | x in g'.requests
      ensures Trail(g'.audit, g'.requests[x])
    {
      if x != id { TrailExtends(g.audit, added, g.requests[x]); }
    }
  }

  lemma EventsFollow(g: Gate, g': Gate, id: string, added: seq<AuditEvent>, now: Time)
    requires EventsBelong(g) && Moves(g, g', id, added, now)
    ensures EventsBelong(g')
  {
    hide GoodRecord, Trail, SetsFollow, NamedID, BoundTo;
    forall i | 0 <= i < |g'.audit|
      ensures NamedID(g'.audit[i]) && g'.audit[i].requestID in g'.requests
      ensures BoundTo(g'.audit[i], g'.requests[g'.audit[i].requestID].request)
    {
      if i >= |g.audit| {
        assert g'.audit[i] == added[i - |g.audit|];
        IssuedBelongs(added[i - |g.audit|], g'.requests[id]);
        GoodRecordID(g'.requests[id], g.policyEpoch, now);
      } else {
        assert g'.audit[i] == g.audit[i];
      }
    }
  }

  lemma IssuedBelongs(e: AuditEvent, r: Record)
    requires Issued(e, r)
    ensures e.requestID == r.request.id && BoundTo(e, r.request)
  {
  }

  lemma GoodRecordID(r: Record, epoch: nat, now: Time)
    requires GoodRecord(r, epoch, now)
    ensures r.request.id == r.id && Storable(r)
  {
    hide ValidateRequest, NormalizeLanguage, ExpectedPhrase, SoundConfirmation, SoundApproval,
      AutoApproved, ConfirmationMatches, ValidateCommit;
  }

  lemma UsedFollowsLog(g: Gate, g': Gate, id: string, added: seq<AuditEvent>)
    requires UsedMatchesLog(g) && SetsFollow(g, g', id, added) && g'.audit == g.audit + added
    ensures UsedMatchesLog(g')
  {
    forall x | x in g'.usedIDs
      ensures exists i :: 0 <= i < |g'.audit| && UsesID(g'.audit[i], x)
    {
      if x in g.usedIDs {
        var i :| 0 <= i < |g.audit| && UsesID(g.audit[i], x);
        assert UsesID(g'.audit[i], x);
      } else {
        var i :| 0 <= i < |added| && UsesID(added[i], x);
        assert UsesID(g'.audit[|g.audit| + i], x);
      }
    }
  }

  lemma OwnersFollowLog(g: Gate, g': Gate, id: string, added: seq<AuditEvent>)
    requires OwnersMatchLog(g) && SetsFollow(g, g', id, added) && g'.audit == g.audit + added
    requires forall i | 0 <= i < |added| :: added[i].requestID == id
    ensures OwnersMatchLog(g')
  {
    forall x | x in g'.owners
      ensures exists i :: 0 <= i < |g'.audit| && ReservesID(g'.audit[i], x)
    {
      if x in g.owners {
        var i :| 0 <= i < |g.audit| && ReservesID(g.audit[i], x);
        assert ReservesID(g'.audit[i], x);
      } else {
        var i :| 0 <= i < |added| && ReservesID(added[i], x);
        assert ReservesID(g'.audit[|g.audit| + i], x);
      }
    }
  }

  lemma GateFollows(g: Gate, g': Gate, id: string, added: seq<AuditEvent>, clock: Time, now: Time)
    requires GateOK(g, clock) && clock <= now && Moves(g, g', id, added, now)
    ensures GateOK(g', now)
  {
    hide GoodRecord, Trail, NamedID, BoundTo, EventsBelong, RecordsGood, SetsFollow,
      UsedMatchesLog, OwnersMatchLog;
    RecordsFollow(g, g', id, added, clock, now);
    EventsFollow(g, g', id, added, now);
    GoodRecordID(g'.requests[id], g.policyEpoch, now);
    forall i | 0 <= i < |added|
      ensures added[i].requestID == id
    {
      IssuedBelongs(added[i], g'.requests[id]);
    }
    UsedFollowsLog(g, g', id, added);
    OwnersFollowLog(g, g', id, added);
  }

  lemma {:induction false} NoEventsOf(audit: seq<AuditEvent>, id: string)
    requires forall i | 0 <= i < |audit| :: audit[i].requestID != id
    ensures EventsOf(audit, id) == []
  {
    if audit != [] { NoEventsOf(audit[..|audit| - 1], id); }
  }

  /** A move whose write goes through keeps the invariant; one whose write fails
      leaves the world, and the invariant with it, untouched. */
  lemma WrittenMove(w: World, g': Gate, id: string, added: seq<AuditEvent>, refuse: bool,
                    clock: Time, now: Time)
    requires Inv(w, clock) && clock <= now && Moves(w.gate, g', id, added, now)
    ensures w.ledger.Some? ==>
      (Persist(w, g', id, refuse).Ok? <==> !refuse && AllActorsValid(added))
    ensures Persist(w, g', id, refuse).Ok? ==>
      var w' := Persist(w, g', id, refuse).value;
      && Inv(w', now) && w'.gate == g'.(durable := w'.gate.durable)
      && (w.ledger.Some? <==> w'.ledger.Some?)
  {
    GateFollows(w.gate, g', id, added, clock, now);
    MoveExtends(w, g', id, added, clock, now);
    hide GoodRecord, Trail, NamedID, BoundTo, SetsFollow, Mirrors, Extends, Issued, RecordsGood,
      EventsBelong, UsedMatchesLog, OwnersMatchLog;
    if w.ledger.Some? {
      PersistExtension(w, g', id, added, refuse);
      hide Persist;
      if Persist(w, g', id, refuse).Ok? {
        DurableIrrelevant(g', Persist(w, g', id, refuse).value.gate, now);
      }
    }
  }

  lemma DurableIrrelevant(g: Gate, g': Gate, now: Time)
    requires GateOK(g, now) && g' == g.(durable := g'.durable)
    ensures GateOK(g', now)
  {
    hide GoodRecord, Trail, NamedID, BoundTo;
  }

  lemma MoveExtends(w: World, g': Gate, id: string, added: seq<AuditEvent>, clock: Time, now: Time)
    requires GateOK(w.gate, clock) && Moves(w.gate, g', id, added, now)
    ensures Extends(w, g', id, added)
  {
    GoodRecordID(g'.requests[id], w.gate.policyEpoch, now);
    hide GoodRecord, Trail, NamedID, SetsFollow, Storable, RecordsGood, Issued,
      UsedMatchesLog, OwnersMatchLog;
    if id !in w.gate.requests { NoEventsOf(w.gate.audit, id); }
  }
}
