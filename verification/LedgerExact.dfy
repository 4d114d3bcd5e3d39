/** What the ledger accepts and what a gate takes back from it, in terms of what they are given. */
module LedgerExact {
  import opened Wrappers
  import opened ApprovalTypes
  import opened ApprovalRules
  import opened ApprovalLedger
  import opened ApprovalGate
  import Checks = GateChecks

  /** A mutation the ledger can keep: it names its record and request throughout. */
  ghost predicate ProperMutation(m: Mutation) {
    var r, e := m.record.request, m.event;
    && ValidIdentifier(m.idempotencyKey) && ValidIdentifier(m.record.id) && r.id == m.record.id && ValidOpaque(m.workflowDigest)
    && Checks.ProperRequest(r) && m.record.submittedAt != 0 && m.record.submittedAt <= m.record.expiresAt
    && e.sequence != 0 && e.at != 0 && e.requestID == m.record.id && e.scope == r.scope && e.policyEpoch == r.policyEpoch
    && (e.workflowDigest == "" || e.workflowDigest == m.workflowDigest)
    && (EmptyToken(e.intentDigest) || e.intentDigest == r.intentDigest) && (e.sessionID == "" || e.sessionID == r.sessionID)
    && (EmptyToken(e.nonce) || e.nonce == r.nonce) && ValidOpaque(e.actor)
  }

  lemma MutationIff(m: Mutation)
    ensures ValidateMutation(m).Pass? <==> ProperMutation(m)
  {
    Checks.RequestIff(m.record.request);
    ProperTokens(m.record.request);
    hide ValidateRequest, Checks.ProperRequest;
    assert ValidOpaque("");
    hide ValidOpaque;
  }

  lemma ProperTokens(r: Request)
    ensures Checks.ProperRequest(r) ==> !EmptyToken(r.nonce) && ValidOpaqueToken(r.nonce)
  {
    hide NormalizeLanguage, ValidOpaque, ValidDigest, SensitiveScope;
  }

  /** The mutation is about the very request of an earlier entry, with the same lifetime. */
  ghost predicate Continues(prior: Entry, m: Mutation) {
    var p, r := prior.record.request, m.record.request;
    && prior.workflow == m.workflowDigest && prior.record.expiresAt == m.record.expiresAt
    && p.(scope := r.scope, policyEpoch := r.policyEpoch, intentDigest := r.intentDigest, sessionID := r.sessionID,
          nonce := r.nonce) == p
  }

  lemma ContinuesIff(prior: Entry, m: Mutation)
    requires ProperMutation(m)
    ensures SameBinding(prior, Bind(m)) <==> Continues(prior, m)
  {
    hide Checks.ProperRequest, ValidOpaque;
  }

  /** The mutation follows on what the ledger holds of its request. */
  ghost predicate Follows(l: Ledger, m: Mutation) {
    var id := m.record.id;
    if id !in l.records then m.event.sequence == 1
    else
      var prior := l.records[id];
      && Continues(prior, m)
      && (prior.events != [] ==> m.event.sequence == prior.events[|prior.events| - 1].sequence + 1)
  }

  /** A mutation is accepted when it is proper and its key is new and it follows, or its key was spent on this
      very mutation, which changes nothing; a key spent on another is a conflict. */
  lemma ApplyIff(l: Ledger, m: Mutation)
    ensures var spent := m.idempotencyKey in l.idempotency; var same := spent && l.idempotency[m.idempotencyKey] == Bind(m);
      && (Apply(l, m).Ok? <==> ProperMutation(m) && (if spent then same else Follows(l, m)))
      && (Apply(l, m).Ok? && spent ==> Apply(l, m).value == l)
      && (ProperMutation(m) && spent && !same ==> Apply(l, m) == Err(IdempotencyConflict))
  {
    MutationIff(m);
    BindKeeps(m);
    if m.record.id in l.records && ProperMutation(m) { ContinuesIff(l.records[m.record.id], m); }
    hide ValidateMutation, ProperMutation, SameBinding, Bind, Chained, Continues;
  }

  lemma BindKeeps(m: Mutation)
    ensures Bind(m).record == m.record && Bind(m).idempotencyKey == m.idempotencyKey && Bind(m).event.sequence == m.event.sequence
    ensures Bind(m).workflowDigest == m.workflowDigest
  {
  }

  /** What an accepted new mutation leaves: its record, and its event, bound to the request and chained to the
      last, at the end of the request's chain; the key is spent. */
  lemma AppliedIs(l: Ledger, m: Mutation)
    requires Apply(l, m).Ok? && m.idempotencyKey !in l.idempotency
    ensures var l' := Apply(l, m).value; var id := m.record.id;
      var events := if id in l.records then l.records[id].events else [];
      && id in l'.records && l'.records == l.records[id := l'.records[id]]
      && l'.idempotency == l.idempotency[m.idempotencyKey := Bind(m)]
      && l'.records[id].record == m.record && l'.records[id].workflow == m.workflowDigest
      && |l'.records[id].events| == |events| + 1 && l'.records[id].events[..|events|] == events
      && var e := l'.records[id].events[|events|];
         && e == BoundToRequest(m).(previousHash := e.previousHash, hash := e.hash) && e.hash == HashEvent(e)
         && e.previousHash == (if events == [] then m.event.previousHash else LastHash(events))
  {
    BindKeeps(m);
    BindIs(m);
    hide ValidateMutation, SameBinding, Bind;
  }

  /** The event with what its request says of workflow, intent, session and nonce. */
  ghost function BoundToRequest(m: Mutation): AuditEvent {
    m.event.(workflowDigest := m.workflowDigest, intentDigest := m.record.request.intentDigest,
             sessionID := m.record.request.sessionID, nonce := m.record.request.nonce)
  }

  lemma BindIs(m: Mutation)
    ensures Bind(m).event == BoundToRequest(m)
  {
  }

  /** Applying a mutation again changes nothing. */
  lemma ApplyIsIdempotent(l: Ledger, m: Mutation)
    requires Apply(l, m).Ok?
    ensures Apply(Apply(l, m).value, m) == Ok(Apply(l, m).value)
  {
    ApplyIff(l, m);
    if m.idempotencyKey !in l.idempotency { AppliedIs(l, m); }
    hide Follows, Apply;
    ApplyIff(Apply(l, m).value, m);
    hide ProperMutation, Bind;
  }

  /** A batch is accepted when the store is willing, there is something in it, and every mutation is accepted
      after those before it; what it leaves is what they leave one by one. */
  lemma BatchIff(l: Ledger, ms: seq<Mutation>, refuse: bool)
    ensures ApplyBatch(l, ms, refuse).Ok? <==> !refuse && ms != [] && exists ls :: OneByOne(l, ms, ls)
    ensures forall ls | ms != [] && !refuse && OneByOne(l, ms, ls) :: ApplyBatch(l, ms, refuse) == Ok(ls[|ms|])
  {
    hide Apply;
    if ApplyAll(l, ms).Ok? { var ls := AppliesInSteps(l, ms); }
    forall ls | OneByOne(l, ms, ls)
      ensures ApplyAll(l, ms) == Ok(ls[|ms|])
    {
      StepsApply(l, ms, ls);
    }
  }

  /** The ledgers between the mutations. */
  ghost predicate OneByOne(l: Ledger, ms: seq<Mutation>, ls: seq<Ledger>) {
    |ls| == |ms| + 1 && ls[0] == l && forall i | 0 <= i < |ms| :: Apply(ls[i], ms[i]) == Ok(ls[i + 1])
  }

  lemma {:induction false} AppliesInSteps(l: Ledger, ms: seq<Mutation>) returns (ls: seq<Ledger>)
    requires ApplyAll(l, ms).Ok?
    ensures OneByOne(l, ms, ls)
    decreases |ms|
  {
    hide Apply;
    ls := [l];
    if ms != [] {
      var rest := AppliesInSteps(Apply(l, ms[0]).value, ms[1..]);
      ls := [l] + rest;
      forall i | 0 <= i < |ms|
        ensures Apply(ls[i], ms[i]) == Ok(ls[i + 1])
      {
        if i > 0 { assert Apply(rest[i - 1], ms[1..][i - 1]) == Ok(rest[i]); }
      }
    }
  }

  lemma {:induction false} StepsApply(l: Ledger, ms: seq<Mutation>, ls: seq<Ledger>)
    requires OneByOne(l, ms, ls)
    ensures ApplyAll(l, ms) == Ok(ls[|ms|])
    decreases |ms|
  {
    hide Apply;
    if ms != [] {
      assert Apply(ls[0], ms[0]) == Ok(ls[1]);
      StepsApply(ls[1], ms[1..], ls[1..]);
    }
  }

  /** A load gives back the entry of a known request whose chain verifies, at its epoch. */
  lemma LoadIff(l: Ledger, id: string, epoch: nat)
    ensures Load(l, id, epoch).Ok? <==>
      && ValidIdentifier(id) && id in l.records && PersistedChain(l.records[id].record, l.records[id].events)
      && l.records[id].record.request.policyEpoch == epoch
    ensures Load(l, id, epoch).Ok? ==> Load(l, id, epoch).value == l.records[id]
  {
    hide PersistedChain, ValidOpaque;
  }

  /** A gate takes a request back exactly when it does not know it and the ledger's entry loads, passes the
      adapter's check, and has events; that they are bound to its request is part of loading. Asked for
      nothing, it fails. */
  lemma RestoreIff(g: Gate, l: Ledger, id: string)
    ensures RestoreRecord(g, l, id).Ok? <==>
      && id !in g.requests && Load(l, id, g.policyEpoch).Ok? && Checks.ProperRecord(l.records[id].record)
      && l.records[id].events != []
    ensures Restore(g, l, []).Err?
  {
    LoadIff(l, id, g.policyEpoch);
    if id in l.records { ChainIsBound(l.records[id].record, l.records[id].events); }
    if id in l.records { Checks.RecordIff(l.records[id].record); }
    hide Load, ValidateRecord, Checks.ProperRecord, EventsBound, PersistedChain, ValidOpaque, RestoreIDs, RestoreOwners;
  }

  lemma ChainIsBound(record: Record, events: seq<AuditEvent>)
    ensures PersistedChain(record, events) ==> EventsBound(record, events)
  {
    if PersistedChain(record, events) {
      forall i | 0 <= i < |events|
        ensures events[i].requestID == record.id && events[i].scope == record.request.scope
        ensures events[i].policyEpoch == record.request.policyEpoch && events[i].intentDigest == record.request.intentDigest
        ensures events[i].sessionID == record.request.sessionID && events[i].nonce == record.request.nonce
      {
        assert PersistedEvent(record, events, i);
      }
    }
  }
}
