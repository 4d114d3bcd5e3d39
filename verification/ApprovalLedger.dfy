/** MemoryPersistence: per-request records with hash-chained events,
    idempotency keys and atomic batches. The ledger as a value comes first, the
    mutable object that implements it second. */
module ApprovalLedger {
  import opened Wrappers
  import opened ApprovalTypes
  import opened ApprovalRules

  datatype Mutation = Mutation(
    idempotencyKey: string, workflowDigest: string, record: Record, event: AuditEvent)

  datatype Entry = Entry(record: Record, workflow: string, events: seq<AuditEvent>)

  /** A mutation's fingerprint is its SHA-256, here the mutation itself. */
  datatype Ledger = Ledger(records: map<string, Entry>, idempotency: map<string, Mutation>)

  const EMPTY_LEDGER := Ledger(map[], map[])

  function HashEvent(e: AuditEvent): Digest { Sha(e.(hash := NoHash)) }

  predicate BoundEvent(e: AuditEvent, request: Request) {
    e.scope == request.scope && e.policyEpoch == request.policyEpoch
  }

  function ValidateMutation(m: Mutation): Outcome {
    var r := m.record.request;
    if !ValidIdentifier(m.idempotencyKey) || !ValidIdentifier(m.record.id) || r.id != m.record.id
       || !ValidOpaque(m.workflowDigest) || m.event.sequence == 0 || m.event.at == 0
       || m.event.requestID != m.record.id
       || (m.event.workflowDigest != "" && m.event.workflowDigest != m.workflowDigest)
    then Fail(InvalidPersistence)
    else if ValidateRequest(r).Fail? || EmptyToken(r.nonce) || !ValidOpaqueToken(r.nonce)
    then Fail(InvalidPersistence)
    else if !BoundEvent(m.event, r)
            || (!EmptyToken(m.event.intentDigest) && m.event.intentDigest != r.intentDigest)
            || (m.event.sessionID != "" && m.event.sessionID != r.sessionID)
            || (!EmptyToken(m.event.nonce) && m.event.nonce != r.nonce)
    then Fail(BindingConflict)
    else if m.event.actor != "" && !ValidOpaque(m.event.actor) then Fail(InvalidPersistence)
    else if m.record.expiresAt == 0 || m.record.submittedAt == 0
            || m.record.expiresAt < m.record.submittedAt then Fail(InvalidPersistence)
    else Pass
  }

  /** The mutation with its event bound to the record's own request. */
  function Bind(m: Mutation): Mutation {
    var r := m.record.request;
    m.(event := m.event.(workflowDigest := m.workflowDigest, intentDigest := r.intentDigest,
                         sessionID := r.sessionID, nonce := r.nonce))
  }

  predicate SameBinding(prior: Entry, m: Mutation) {
    var p, r := prior.record.request, m.record.request;
    && prior.workflow == m.workflowDigest && p.scope == r.scope && p.policyEpoch == r.policyEpoch
    && p.intentDigest == r.intentDigest && p.sessionID == r.sessionID && p.nonce == r.nonce
    && prior.record.expiresAt == m.record.expiresAt && BoundEvent(m.event, r)
  }

  function LastHash(events: seq<AuditEvent>): Digest {
    if events == [] then NoHash else events[|events| - 1].hash
  }

  function Chained(e: AuditEvent, previous: Digest): AuditEvent {
    var e' := e.(previousHash := previous);
    e'.(hash := HashEvent(e'))
  }

  /** applyLocked. */
  function Apply(l: Ledger, raw: Mutation): Result<Ledger> {
    if ValidateMutation(raw).Fail? then Err(ValidateMutation(raw).error)
    else
      var m := Bind(raw);
      var key := m.record.id;
      if m.idempotencyKey in l.idempotency then
        if l.idempotency[m.idempotencyKey] == m then Ok(l) else Err(IdempotencyConflict)
      else if key in l.records && !SameBinding(l.records[key], m) then Err(BindingConflict)
      else
        var events := if key in l.records then l.records[key].events else [];
        if key in l.records && events != []
           && m.event.sequence != events[|events| - 1].sequence + 1 then Err(EventSequence)
        else if key !in l.records && m.event.sequence != 1 then Err(EventSequence)
        else
          var previous := if events == [] then m.event.previousHash else LastHash(events);
          var entry := Entry(m.record, m.workflowDigest, events + [Chained(m.event, previous)]);
          Ok(Ledger(l.records[key := entry], l.idempotency[m.idempotencyKey := m]))
  }

  function ApplyAll(l: Ledger, ms: seq<Mutation>): Result<Ledger>
    decreases |ms|
  {
    if ms == [] then Ok(l)
    else match Apply(l, ms[0])
         case Err(e) => Err(e)
         case Ok(l') => ApplyAll(l', ms[1..])
  }

  /** ApplyBatch: all mutations or none; a refusing store has no effect. */
  function ApplyBatch(l: Ledger, ms: seq<Mutation>, refuse: bool): Result<Ledger> {
    if refuse then Err(LedgerRefused)
    else if ms == [] then Err(InvalidPersistence)
    else ApplyAll(l, ms)
  }

  predicate PersistedEvent(record: Record, events: seq<AuditEvent>, i: nat)
    requires i < |events|
  {
    var e, r := events[i], record.request;
    && e.sequence == i + 1 && e.requestID == record.id && e.scope == r.scope
    && e.policyEpoch == r.policyEpoch && e.intentDigest == r.intentDigest
    && e.workflowDigest == r.workflowDigest && e.sessionID == r.sessionID && e.nonce == r.nonce
    && e.previousHash == LastHash(events[..i]) && e.hash == HashEvent(e)
  }

  /** validatePersistedEvents: one gap-free verified chain bound to the record. */
  predicate PersistedChain(record: Record, events: seq<AuditEvent>) {
    forall i: nat | i < |events| :: PersistedEvent(record, events, i)
  }

  /** LoadWithEventsAtEpoch. */
  function Load(l: Ledger, id: string, epoch: nat): Result<Entry> {
    if !ValidIdentifier(id) then Err(InvalidPersistence)
    else if id !in l.records then Err(ApprovalNotFound)
    else if !PersistedChain(l.records[id].record, l.records[id].events) then Err(InvalidPersistence)
    else if l.records[id].record.request.policyEpoch != epoch then Err(EpochChanged)
    else Ok(l.records[id])
  }

  // ----- the chained form of a list of events

  /** The events renumbered from 1 and hash-chained, as the ledger stores them. */
  function Seal(events: seq<AuditEvent>): (sealed: seq<AuditEvent>)
    ensures |sealed| == |events|
  {
    if events == [] then []
    else
      var n := |events| - 1;
      var front := Seal(events[..n]);
      front + [Chained(events[n].(sequence := n + 1, hash := NoHash), LastHash(front))]
  }

  lemma {:induction false} SealedAt(events: seq<AuditEvent>, i: nat)
    requires i < |events|
    ensures Seal(events)[..i] == Seal(events[..i])
    ensures Seal(events)[i]
         == Chained(events[i].(sequence := i + 1, hash := NoHash), LastHash(Seal(events[..i])))
  {
    var n := |events| - 1;
    if i < n {
      SealedAt(events[..n], i);
      assert events[..n][..i] == events[..i];
      assert Seal(events)[..i] == Seal(events[..n])[..i];
    } else {
      assert Seal(events)[..n] == Seal(events[..n]);
    }
  }

  predicate BoundTo(e: AuditEvent, r: Request) {
    && e.requestID == r.id && BoundEvent(e, r) && e.intentDigest == r.intentDigest
    && e.workflowDigest == r.workflowDigest && e.sessionID == r.sessionID && e.nonce == r.nonce
  }

  /** Sealing events bound to a record's request yields a chain the load check accepts. */
  lemma SealIsPersistedChain(record: Record, events: seq<AuditEvent>)
    requires record.id == record.request.id
    requires forall i | 0 <= i < |events| :: BoundTo(events[i], record.request)
    ensures PersistedChain(record, Seal(events))
  {
    forall i: nat | i < |events|
      ensures PersistedEvent(record, Seal(events), i)
    {
      SealedAt(events, i);
    }
  }

  /** A verified chain is tamper evident: its last hash determines every event. */
  lemma {:induction false} LastHashDeterminesChain(
      r1: Record, es1: seq<AuditEvent>, r2: Record, es2: seq<AuditEvent>)
    requires PersistedChain(r1, es1) && PersistedChain(r2, es2)
    requires LastHash(es1) == LastHash(es2)
    ensures es1 == es2
    decreases |es1|
  {
    assert es1 != [] ==> PersistedEvent(r1, es1, |es1| - 1);
    assert es2 != [] ==> PersistedEvent(r2, es2, |es2| - 1);
    if es1 != [] {
      var n1, n2 := |es1| - 1, |es2| - 1;
      ChainPrefix(r1, es1, n1);
      ChainPrefix(r2, es2, n2);
      LastHashDeterminesChain(r1, es1[..n1], r2, es2[..n2]);
      assert es1 == es1[..n1] + [es1[n1]] && es2 == es2[..n2] + [es2[n2]];
    }
  }

  lemma ChainPrefix(r: Record, es: seq<AuditEvent>, n: nat)
    requires n <= |es| && PersistedChain(r, es)
    ensures PersistedChain(r, es[..n])
  {
    forall i: nat | i < n
      ensures PersistedEvent(r, es[..n], i)
    {
      assert PersistedEvent(r, es, i);
      assert es[..n][..i] == es[..i];
    }
  }

  // ----- the object

  class MemoryPersistence {
    var records: map<string, Entry>
    var idempotency: map<string, Mutation>

    function View(): Ledger
      reads this
    {
      Ledger(records, idempotency)
    }

    constructor ()
      ensures View() == EMPTY_LEDGER
    {
      records, idempotency := map[], map[];
    }

    method ApplyLocked(raw: Mutation) returns (r: Outcome)
      modifies this
      ensures match Apply(old(View()), raw)
              case Ok(l) => r == Pass && View() == l
              case Err(e) => r == Fail(e) && View() == old(View())
    {
      hide ValidateMutation, SameBinding, Bind;
      var checked := ValidateMutation(raw);
      if checked.Fail? {
        return checked;
      }
      var m := Bind(raw);
      var key := m.record.id;
      if m.idempotencyKey in idempotency {
        return if idempotency[m.idempotencyKey] == m then Pass else Fail(IdempotencyConflict);
      }
      var events := [];
      if key in records {
        var prior := records[key];
        if !SameBinding(prior, m) {
          return Fail(BindingConflict);
        }
        events := prior.events;
        if |events| > 0 {
          var last := events[|events| - 1];
          if m.event.sequence != last.sequence + 1 {
            return Fail(EventSequence);
          }
          m := m.(event := m.event.(previousHash := last.hash));
        }
      } else if m.event.sequence != 1 {
        return Fail(EventSequence);
      }
      m := m.(event := m.event.(hash := HashEvent(m.event)));
      records := records[key := Entry(m.record, m.workflowDigest, events + [m.event])];
      idempotency := idempotency[m.idempotencyKey := Bind(raw)];
      r := Pass;
    }

    /** A batch that fails part-way puts back the copies taken at its start. */
    method ApplyBatchLocked(ms: seq<Mutation>, refuse: bool) returns (r: Outcome)
      modifies this
      ensures match ApplyBatch(old(View()), ms, refuse)
              case Ok(l) => r == Pass && View() == l
              case Err(e) => r == Fail(e) && View() == old(View())
    {
      hide Apply;
      if refuse {
        return Fail(LedgerRefused);
      }
      if ms == [] {
        return Fail(InvalidPersistence);
      }
      var savedRecords, savedIdempotency := records, idempotency;
      var i := 0;
      while i < |ms|
        invariant 0 <= i <= |ms|
        invariant ApplyAll(View(), ms[i..]) == ApplyAll(old(View()), ms)
      {
        assert ms[i..][1..] == ms[i + 1..];
        var step := ApplyLocked(ms[i]);
        if step.Fail? {
          records, idempotency := savedRecords, savedIdempotency;
          return step;
        }
        i := i + 1;
      }
      r := Pass;
    }

    method LoadWithEventsAtEpoch(id: string, epoch: nat) returns (r: Result<Entry>)
      ensures r == Load(View(), id, epoch)
    {
      if !ValidIdentifier(id) {
        return Err(InvalidPersistence);
      }
      if id !in records {
        return Err(ApprovalNotFound);
      }
      var entry := records[id];
      var checked := ValidatePersistedEvents(entry.record, entry.events);
      if checked.Fail? {
        return Err(checked.error);
      }
      r := if entry.record.request.policyEpoch != epoch then Err(EpochChanged) else Ok(entry);
    }
  }

  method ValidatePersistedEvents(record: Record, events: seq<AuditEvent>) returns (r: Outcome)
    ensures r == if PersistedChain(record, events) then Pass else Fail(InvalidPersistence)
  {
    var previous := NoHash;
    var i := 0;
    while i < |events|
      invariant 0 <= i <= |events|
      invariant previous == LastHash(events[..i])
      invariant forall k: nat | k < i :: PersistedEvent(record, events, k)
    {
      var e, q := events[i], record.request;
      if e.sequence != i + 1 || e.requestID != record.id || e.scope != q.scope
         || e.policyEpoch != q.policyEpoch || e.intentDigest != q.intentDigest
         || e.workflowDigest != q.workflowDigest || e.sessionID != q.sessionID
         || e.nonce != q.nonce || e.previousHash != previous || e.hash == NoHash
         || HashEvent(e) != e.hash {
        assert !PersistedEvent(record, events, i);
        return Fail(InvalidPersistence);
      }
      previous := e.hash;
      i := i + 1;
    }
    r := Pass;
  }
}
