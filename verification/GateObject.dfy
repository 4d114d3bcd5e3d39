/** The gate as the mutable object it is: fields updated in place, an optional
    ledger object, and a snapshot put back when the ledger write fails. Each
    method is proved to be the step on values of the same name. */
module GateObject {
  import opened Wrappers
  import opened ApprovalTypes
  import opened ApprovalRules
  import opened ApprovalLedger
  import Spec = ApprovalGate

  /** The loop of persistSince over the events it found. */
  method Batch(record: Record, events: seq<AuditEvent>, id: string, durable: nat)
      returns (batch: seq<Mutation>)
    ensures batch == Spec.Mutations(record, events, id, durable)
  {
    batch := [];
    var local := durable;
    var i := 0;
    while i < |events|
      invariant 0 <= i <= |events| && local == durable + |batch|
      invariant batch + Spec.Mutations(record, events[i..], id, local)
             == Spec.Mutations(record, events, id, durable)
    {
      assert events[i..][0] == events[i] && events[i..][1..] == events[i + 1..];
      if events[i].requestID == id {
        local := local + 1;
        batch := batch + [Mutation(Spec.Key(id, local), record.request.workflowDigest, record,
                                   events[i].(sequence := local))];
      }
      i := i + 1;
    }
    assert events[i..] == [];
  }

  /** persistSince with a ledger, once its batch is built. */
  lemma PersistIs(w: Spec.World, g: Spec.Gate, id: string, refuse: bool, batch: seq<Mutation>)
    requires w.ledger.Some? && |w.gate.audit| <= |g.audit|
    requires batch == Spec.Mutations(Spec.RecordOf(g, id), g.audit[|w.gate.audit|..], id, Spec.DurableSequence(g, id))
    ensures var g' := g.(durable := g.durable[id := Spec.DurableSequence(g, id) + |batch|]);
      Spec.Persist(w, g, id, refuse) ==
      if batch == [] then Ok(Spec.World(g', w.ledger))
      else match ApplyBatch(w.ledger.value, batch, refuse)
           case Err(e) => Err(e)
           case Ok(l) => Ok(Spec.World(g', Some(l)))
  {
    hide Spec.Mutations, ApplyBatch, Spec.DurableSequence, Spec.RecordOf;
  }

  lemma PersistNowhere(w: Spec.World, g: Spec.Gate, id: string, refuse: bool)
    requires w.ledger.None? && |w.gate.audit| <= |g.audit|
    ensures Spec.Persist(w, g, id, refuse) == Ok(Spec.World(g, None))
  {
  }

  lemma OneMoreID(events: seq<AuditEvent>, e: AuditEvent, kind: AuditType)
    ensures Spec.IDsOf(events + [e], kind)
         == Spec.IDsOf(events, kind) + if e.kind == kind && e.confirmationID != "" then {e.confirmationID} else {}
  {
    var more := events + [e];
    assert e in more && forall x | x in events :: x in more;
    assert forall x | x in more :: x in events || x == e;
  }

  lemma RestoreOneMore(used: set<string>, owners: map<string, string>, id: string,
                       events: seq<AuditEvent>, e: AuditEvent)
    ensures Spec.RestoreIDs(used, events + [e])
         == Spec.RestoreIDs(used, events)
            + if e.kind == Authorized && e.confirmationID != "" then {e.confirmationID} else {}
    ensures Spec.RestoreOwners(owners, id, events + [e])
         == if e.kind == Checkpoint && e.confirmationID != ""
            then Spec.RestoreOwners(owners, id, events)[e.confirmationID := id]
            else Spec.RestoreOwners(owners, id, events)
  {
    hide Spec.IDsOf;
    OneMoreID(events, e, Authorized);
    OneMoreID(events, e, Checkpoint);
  }

  lemma RestoreNothing(used: set<string>, owners: map<string, string>, id: string)
    ensures Spec.RestoreIDs(used, []) == used && Spec.RestoreOwners(owners, id, []) == owners
  {
  }

  class LiveGate {
    var policyEpoch: nat
    var requests: map<string, Record>
    var usedIDs: set<string>
    var confirmationOwners: map<string, string>
    var audit: seq<AuditEvent>
    var sequence: nat
    var durableSequences: map<string, nat>
    var persistence: MemoryPersistence?

    function State(): Spec.Gate
      reads this
    {
      Spec.Gate(policyEpoch, requests, usedIDs, confirmationOwners, audit, sequence, durableSequences)
    }

    function View(): Spec.World
      reads this, persistence
    {
      Spec.World(State(), if persistence == null then None else Some(persistence.View()))
    }

    constructor (epoch: nat, ledger: MemoryPersistence?)
      ensures persistence == ledger
      ensures State() == Spec.NewGate(epoch)
    {
      policyEpoch, requests, usedIDs, confirmationOwners := epoch, map[], {}, map[];
      audit, sequence, durableSequences, persistence := [], 0, map[], ledger;
    }

    method RestoreSnapshot(s: Spec.Gate)
      requires s.policyEpoch == policyEpoch
      modifies this
      ensures State() == s && persistence == old(persistence)
    {
      requests, usedIDs, confirmationOwners := s.requests, s.usedIDs, s.owners;
      audit, sequence, durableSequences := s.audit, s.sequence, s.durable;
    }

    method AppendAudit(now: Time, kind: AuditType, id: string, actor: string, scope: string, epoch: nat,
                       confirmationID: string, reason: Reason)
      modifies this
      ensures State() == Spec.AppendAudit(old(State()),
        Spec.MakeEvent(old(State()), now, kind, id, actor, scope, epoch, confirmationID, reason))
      ensures persistence == old(persistence)
    {
      sequence := sequence + 1;
      var e := AuditEvent(sequence, kind, now, id, actor, scope, epoch, confirmationID, reason,
                          "", Literal(""), "", 0, Literal(""), NoHash, NoHash);
      if id in requests {
        var r := requests[id];
        e := e.(workflowDigest := r.request.workflowDigest, intentDigest := r.request.intentDigest,
                sessionID := r.request.sessionID, step := r.confirmation.step, nonce := r.request.nonce);
      }
      audit := audit + [e];
    }

    /** Writes the events logged since start; w is the world the caller started from. */
    method PersistSince(start: nat, id: string, refuse: bool, ghost w: Spec.World) returns (r: Outcome)
      requires start <= |audit|
      requires start == |w.gate.audit| && w.ledger == View().ledger
      modifies this, persistence
      ensures persistence == old(persistence)
      ensures match Spec.Persist(w, old(State()), id, refuse)
              case Ok(w') => r == Pass && View() == w'
              case Err(e) => r == Fail(e) && View() == old(View())
    {
      hide Spec.Mutations, ApplyBatch, Spec.DurableSequence, Spec.RecordOf, Spec.Persist, MemoryPersistence.View;
      if persistence == null {
        PersistNowhere(w, State(), id, refuse);
        return Pass;
      }
      var local := Spec.DurableSequence(State(), id);
      var batch := Batch(Spec.RecordOf(State(), id), audit[start..], id, local);
      PersistIs(w, State(), id, refuse, batch);
      r := WriteAndCount(batch, id, local, refuse);
    }

    /** The ledger is written, and then the counter of durable events moves on. */
    method WriteAndCount(batch: seq<Mutation>, id: string, local: nat, refuse: bool) returns (r: Outcome)
      requires persistence != null
      modifies this, persistence
      ensures persistence == old(persistence)
      ensures var l := old(persistence.View());
        var written := if batch == [] then Ok(l) else ApplyBatch(l, batch, refuse);
        match written
        case Ok(l') =>
          && r == Pass && persistence.View() == l'
          && State() == old(State()).(durable := old(durableSequences)[id := local + |batch|])
        case Err(e) => r == Fail(e) && persistence.View() == l && State() == old(State())
    {
      hide ApplyBatch;
      r := Pass;
      if |batch| > 0 {
        r := persistence.ApplyBatchLocked(batch, refuse);
      }
      if r.Pass? {
        durableSequences := durableSequences[id := local + |batch|];
      }
    }

    method Submit(now: Time, raw: Request, refuse: bool) returns (out: Result<Record>)
      modifies this, persistence
      ensures persistence == old(persistence)
      ensures (View(), out) == Spec.Submit(old(View()), now, raw, refuse)
    {
      hide NormalizeRequest, ValidateRequest, ExpectedPhrase, ApplyBatch, Spec.Mutations;
      var admitted := Spec.AdmitRequest(State(), raw);
      if admitted.Err? {
        return Err(admitted.error);
      }
      var snap, start := State(), |audit|;
      ghost var before := View();
      var req := admitted.value;
      var record := Spec.NewRecord(now, req);
      requests := requests[req.id := record];
      AppendAudit(now, Submitted, req.id, req.actor, req.scope, req.policyEpoch, "", Plain(""));
      if record.status == Approved {
        var id := record.commit.value.confirmationID;
        usedIDs := usedIDs + {id};
        AppendAudit(now, Authorized, req.id, req.actor, req.scope, req.policyEpoch, id, Plain("pre-approved"));
      }
      assert State() == Spec.AfterSubmit(snap, now, req);
      hide Spec.AfterSubmit, Spec.NewRecord, Spec.Persist;
      var stored := PersistSince(start, req.id, refuse, before);
      if stored.Fail? {
        RestoreSnapshot(snap);
        return Err(stored.error);
      }
      out := Ok(record);
    }

    method Confirm(now: Time, id: string, raw: Confirmation, refuse: bool) returns (out: Result<Commit>)
      modifies this, persistence
      ensures persistence == old(persistence)
      ensures (View(), out) == Spec.Confirm(old(View()), now, id, raw, refuse)
    {
      hide Spec.Persist, Spec.Decide;
      var snap, start := State(), |audit|;
      ghost var before := View();
      if id !in requests {
        out := Err(NotFound);
      } else {
        out := DecideAndLog(now, id, raw);
        assert out == Spec.ConfirmAnswer(snap, now, id, raw);
      }
      hide Spec.AfterConfirm, Spec.ConfirmAnswer;
      var stored := PersistSince(start, id, refuse, before);
      if stored.Fail? {
        RestoreSnapshot(snap);
        out := Err(stored.error);
      }
    }

    /** Confirm up to the deferred ledger write. */
    method DecideAndLog(now: Time, id: string, raw: Confirmation) returns (out: Result<Commit>)
      requires id in requests
      modifies this
      ensures persistence == old(persistence)
      ensures State() == Spec.AfterConfirm(old(State()), now, id, raw)
      ensures out == Spec.ConfirmAnswer(old(State()), now, id, raw)
    {
      hide Spec.Decide;
      var record := requests[id];
      var req := record.request;
      match Spec.Decide(State(), now, id, raw)
      case Reject(e) =>
        AppendAudit(now, Rejected, id, raw.actor, req.scope, req.policyEpoch, raw.confirmationID, Because(e));
        out := Err(e);
      case Expire =>
        requests := requests[id := record.(status := Expired)];
        AppendAudit(now, ExpiredEvent, id, raw.actor, req.scope, req.policyEpoch, raw.confirmationID,
                    Plain("TTL elapsed"));
        out := Err(ExpiredError);
      case Check(c, first) =>
        if first {
          requests := requests[id := record.(confirmation := c)];
          confirmationOwners := confirmationOwners[c.confirmationID := id];
        }
        AppendAudit(now, Checkpoint, id, c.actor, c.scope, c.policyEpoch, c.confirmationID,
                    Plain(Spec.CHECKPOINT_REASON));
        out := Err(ThirdConfirmation);
      case Authorize(c) =>
        var commit := Spec.CommitFor(record, now, c);
        requests := requests[id := record.(status := Approved, confirmation := c, commit := Some(commit))];
        usedIDs := usedIDs + {c.confirmationID};
        AppendAudit(now, Authorized, id, c.actor, c.scope, c.policyEpoch, c.confirmationID,
                    Plain("interactive confirmation"));
        out := Ok(commit);
    }

    method Withdraw(now: Time, id: string, actor: string, confirmationID: string, reason: string, refuse: bool)
        returns (r: Outcome)
      requires id in requests
      modifies this, persistence
      ensures persistence == old(persistence)
      ensures match Spec.Persist(old(View()), Spec.Withdraw(old(State()), now, id, actor, confirmationID, reason),
                                 id, refuse)
              case Ok(w) => r == Pass && View() == w
              case Err(e) => r == Fail(e) && View() == old(View())
    {
      var snap, start := State(), |audit|;
      ghost var before := View();
      var record := requests[id];
      requests := requests[id := record.(status := Revoked, commit := None)];
      AppendAudit(now, RevokedEvent, id, actor, record.request.scope, record.request.policyEpoch,
                  confirmationID, Plain(reason));
      assert State() == Spec.Withdraw(snap, now, id, actor, confirmationID, reason);
      hide Spec.Persist, Spec.Withdraw;
      r := PersistSince(start, id, refuse, before);
      if r.Fail? {
        RestoreSnapshot(snap);
      }
    }

    method Revoke(now: Time, id: string, actor: string, reason: string, refuse: bool) returns (r: Outcome)
      modifies this, persistence
      ensures persistence == old(persistence)
      ensures (View(), r) == Spec.Revoke(old(View()), now, id, actor, reason, refuse)
    {
      hide Spec.Persist, Spec.Withdraw;
      r := Spec.RevokeChecks(State(), id, actor, reason);
      if r.Pass? {
        r := Withdraw(now, id, actor, "", reason, refuse);
      }
    }

    method ConsumeAuthorization(now: Time, id: string, scope: string, intent: Token, refuse: bool)
        returns (r: Outcome)
      modifies this, persistence
      ensures persistence == old(persistence)
      ensures (View(), r) == Spec.Consume(old(View()), now, id, scope, intent, refuse)
    {
      hide Spec.Persist, Spec.Withdraw, ValidateRecord;
      r := Spec.ConsumeChecks(State(), now, id, scope, intent);
      if r.Pass? {
        var c := requests[id].confirmation;
        r := Withdraw(now, id, c.actor, c.confirmationID, Spec.CONSUMED_REASON, refuse);
      }
    }

    /** Restores the given requests, or puts the gate back as it was. */
    method Restore(ids: seq<string>) returns (r: Outcome)
      modifies this
      ensures persistence == old(persistence)
      ensures if persistence == null then r == Fail(InvalidPersistence) && State() == old(State())
              else match Spec.Restore(old(State()), persistence.View(), ids)
                   case Ok(g) => r == Pass && State() == g
                   case Err(e) => r == Fail(e) && State() == old(State())
    {
      if persistence == null || ids == [] {
        return Fail(InvalidPersistence);
      }
      hide Spec.RestoreRecord, MemoryPersistence.View;
      var snap := State();
      ghost var l := persistence.View();
      var i := 0;
      while i < |ids|
        invariant 0 <= i <= |ids|
        invariant persistence == old(persistence) && policyEpoch == snap.policyEpoch
        invariant persistence.View() == l
        invariant Spec.RestoreAll(State(), l, ids[i..]) == Spec.RestoreAll(snap, l, ids)
      {
        assert ids[i..][1..] == ids[i + 1..];
        var restored := RestoreRecord(ids[i]);
        if restored.Fail? {
          RestoreSnapshot(snap);
          return restored;
        }
        i := i + 1;
      }
      r := Pass;
    }

    method RestoreRecord(id: string) returns (r: Outcome)
      requires persistence != null
      modifies this
      ensures persistence == old(persistence)
      ensures match Spec.RestoreRecord(old(State()), persistence.View(), id)
              case Ok(g) => r == Pass && State() == g && g.policyEpoch == old(policyEpoch)
              case Err(e) => r == Fail(e) && State() == old(State())
    {
      hide ValidateRecord, PersistedChain, Load;
      if id in requests {
        return Fail(DuplicateRequest);
      }
      var loaded := persistence.LoadWithEventsAtEpoch(id, policyEpoch);
      if loaded.Err? {
        return Fail(loaded.error);
      }
      var record, events := loaded.value.record, loaded.value.events;
      var checked := ValidateRecord(record);
      if checked.Fail? {
        return checked;
      }
      if record.request.policyEpoch != policyEpoch {
        return Fail(EpochChanged);
      }
      if events == [] {
        return Fail(InvalidPersistence);
      }
      if !Spec.EventsBound(record, events) {
        return Fail(BindingConflict);
      }
      requests := requests[record.id := record];
      ReplayEvents(record.id, events);
      durableSequences := durableSequences[record.id := |events|];
      r := Pass;
    }

    /** Logs the loaded events under the gate's own numbers and re-learns their IDs. */
    method ReplayEvents(id: string, events: seq<AuditEvent>)
      modifies this
      ensures persistence == old(persistence)
      ensures State() == var g, own := old(State()), Spec.Renumber(events, old(sequence));
        g.(audit := g.audit + own, sequence := g.sequence + |own|,
           usedIDs := Spec.RestoreIDs(g.usedIDs, own), owners := Spec.RestoreOwners(g.owners, id, own))
    {
      ghost var g := State();
      ghost var own := Spec.Renumber(events, sequence);
      hide Spec.RestoreIDs, Spec.RestoreOwners;
      RestoreNothing(usedIDs, confirmationOwners, id);
      var i := 0;
      assert own[..i] == [];
      while i < |events|
        invariant 0 <= i <= |events| && persistence == old(persistence) && policyEpoch == g.policyEpoch
        invariant requests == g.requests && durableSequences == g.durable
        invariant sequence == g.sequence + i && audit == g.audit + own[..i]
        invariant usedIDs == Spec.RestoreIDs(g.usedIDs, own[..i])
        invariant confirmationOwners == Spec.RestoreOwners(g.owners, id, own[..i])
      {
        sequence := sequence + 1;
        var e := events[i].(sequence := sequence);
        audit := audit + [e];
        assert own[..i + 1] == own[..i] + [e];
        RestoreOneMore(g.usedIDs, g.owners, id, own[..i], e);
        if e.confirmationID != "" {
          if e.kind == Authorized {
            usedIDs := usedIDs + {e.confirmationID};
          }
          if e.kind == Checkpoint {
            confirmationOwners := confirmationOwners[e.confirmationID := id];
          }
        }
        i := i + 1;
      }
      assert own[..i] == own;
    }
  }
}
