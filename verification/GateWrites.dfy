/** What a gate write does to the ledger: idempotency keys never collide, and a
    batch of events bound to their record is accepted, sealed onto the request's
    chain, exactly when the store is willing and every actor is well formed. */
module GateWrites {
  import opened Wrappers
  import opened ApprovalTypes
  import opened ApprovalRules
  import opened ApprovalLedger
  import opened ApprovalGate
  import opened GateInvariant

  // ----- idempotency keys

  lemma {:induction false} DecimalHasNoColon(n: nat)
    ensures Decimal(n) != ""
    ensures forall i | 0 <= i < |Decimal(n)| :: '0' <= Decimal(n)[i] <= '9'
  {
    if n >= 10 {
      DecimalHasNoColon(n / 10);
    }
  }

  lemma {:induction false} DecimalInjective(m: nat, n: nat)
    requires Decimal(m) == Decimal(n)
    ensures m == n
  {
    DecimalHasNoColon(m / 10);
    DecimalHasNoColon(n / 10);
    var s := Decimal(m);
    if m >= 10 && n >= 10 {
      assert s[..|s| - 1] == Decimal(m / 10) && s[..|s| - 1] == Decimal(n / 10);
      DecimalInjective(m / 10, n / 10);
    } else {
      assert |Decimal(m)| == |Decimal(n)|;
    }
    assert s[|s| - 1] == Digit(m % 10) == Digit(n % 10);
  }

  /** "gate:" + id + ":" + n names one event of one request, whatever id contains. */
  lemma KeyInjective(id1: string, n1: nat, id2: string, n2: nat)
    requires Key(id1, n1) == Key(id2, n2)
    ensures id1 == id2 && n1 == n2
  {
    DecimalHasNoColon(n1);
    DecimalHasNoColon(n2);
    var d1, d2, s := Decimal(n1), Decimal(n2), Key(id1, n1);
    assert s[|s| - |d1| - 1] == ':' && s[|s| - |d2| - 1] == ':';
    assert forall i | |s| - |d1| <= i < |s| :: s[i] == d1[i - (|s| - |d1|)];
    assert forall i | |s| - |d2| <= i < |s| :: s[i] == d2[i - (|s| - |d2|)];
    assert |d1| == |d2|;
    assert d1 == s[|s| - |d1|..] == d2;
    DecimalInjective(n1, n2);
    assert id1 == s[5..|s| - |d1| - 1] == id2;
  }

  lemma KeyIsIdentifier(id: string, n: nat)
    requires ValidIdentifier(id)
    ensures ValidIdentifier(Key(id, n))
  {
    DecimalHasNoColon(n);
    var d := Decimal(n);
    forall i | 0 <= i < |Key(id, n)|
      ensures !Forbidden(Key(id, n)[i])
    {
      if i < 5 {
        assert Key(id, n)[i] == "gate:"[i];
      } else if i < 5 + |id| {
        assert Key(id, n)[i] == id[i - 5];
      } else if i == 5 + |id| {
        assert Key(id, n)[i] == ':';
      } else {
        assert Key(id, n)[i] == d[i - 6 - |id|];
      }
    }
  }

  // ----- writes

  /** What ValidateMutation asks of a record; every valid record has it. */
  ghost predicate Storable(r: Record) {
    && ValidIdentifier(r.id) && r.request.id == r.id && ValidateRequest(r.request).Pass?
    && 0 < r.submittedAt <= r.expiresAt
  }

  /** An event as the gate issues it: bound to its record and not yet chained. */
  ghost predicate Issued(e: AuditEvent, r: Record) {
    BoundTo(e, r.request) && e.at != 0 && e.previousHash == NoHash && e.hash == NoHash
  }

  /** The ledger's chain for the record's request is exactly the sealed events. */
  ghost predicate Continues(l: Ledger, r: Record, events: seq<AuditEvent>) {
    if r.id !in l.records then events == []
    else
      var entry := l.records[r.id];
      && events != [] && entry.events == Seal(events) && entry.workflow == r.request.workflowDigest
      && entry.record.request == r.request && entry.record.expiresAt == r.expiresAt
  }

  ghost function NextMutation(r: Record, n: nat, e: AuditEvent): Mutation {
    Mutation(Key(r.id, n + 1), r.request.workflowDigest, r, e.(sequence := n + 1))
  }

  lemma ValidateGateMutation(r: Record, n: nat, e: AuditEvent)
    requires Storable(r) && Issued(e, r)
    ensures ValidateMutation(NextMutation(r, n, e))
         == if ValidOpaque(e.actor) then Pass else Fail(InvalidPersistence)
    ensures Bind(NextMutation(r, n, e)) == NextMutation(r, n, e)
  {
    KeyIsIdentifier(r.id, n + 1);
    hide NormalizeLanguage, Forbidden;
  }

  lemma ApplyGateEvent(l: Ledger, r: Record, events: seq<AuditEvent>, e: AuditEvent)
    requires Storable(r) && Issued(e, r) && Continues(l, r, events)
    requires Key(r.id, |events| + 1) !in l.idempotency
    ensures Apply(l, NextMutation(r, |events|, e))
         == if !ValidOpaque(e.actor) then Err(InvalidPersistence)
            else Ok(Ledger(l.records[r.id := Stored(r, events + [e])],
                           l.idempotency[Key(r.id, |events| + 1) := NextMutation(r, |events|, e)]))
  {
    ValidateGateMutation(r, |events|, e);
    SealAppend(events, e);
    if events != [] {
      SealedAt(events, |events| - 1);
    }
    hide ValidateMutation, Seal, ValidateRequest, ValidOpaque, Key;
  }

  lemma SealAppend(events: seq<AuditEvent>, e: AuditEvent)
    ensures Seal(events + [e])
         == Seal(events) + [Chained(e.(sequence := |events| + 1, hash := NoHash), LastHash(Seal(events)))]
  {
    assert (events + [e])[..|events|] == events;
  }

  ghost predicate AllActorsValid(events: seq<AuditEvent>) {
    forall i | 0 <= i < |events| :: ValidOpaque(events[i].actor)
  }

  ghost function KeyRange(id: string, from: nat, to: nat): set<string> {
    set n | from < n <= to :: Key(id, n)
  }

  lemma {:induction false} MutationsOfOneRequest(r: Record, added: seq<AuditEvent>, local: nat)
    requires forall i | 0 <= i < |added| :: added[i].requestID == r.id
    ensures |Mutations(r, added, r.id, local)| == |added|
  {
    if added != [] {
      MutationsOfOneRequest(r, added[1..], local + 1);
    }
  }

  lemma KeyRangeSplit(id: string, from: nat, to: nat)
    requires from < to
    ensures KeyRange(id, from, to) == {Key(id, from + 1)} + KeyRange(id, from + 1, to)
    ensures Key(id, from + 1) !in KeyRange(id, from + 1, to)
  {
    hide Key;
    forall n | from + 1 < n <= to
      ensures Key(id, n) != Key(id, from + 1)
    {
      if Key(id, n) == Key(id, from + 1) { KeyInjective(id, n, id, from + 1); }
    }
  }

  /** Writable: the chain so far is sealed, the events are the gate's and their keys are free. */
  ghost predicate Writable(l: Ledger, r: Record, events: seq<AuditEvent>, added: seq<AuditEvent>) {
    && Storable(r) && Continues(l, r, events)
    && (forall i | 0 <= i < |added| :: Issued(added[i], r))
    && l.idempotency.Keys !! KeyRange(r.id, |events|, |events| + |added|)
  }

  lemma MutationsFirst(r: Record, added: seq<AuditEvent>, n: nat)
    requires added != [] && added[0].requestID == r.id
    ensures Mutations(r, added, r.id, n)
         == [NextMutation(r, n, added[0])] + Mutations(r, added[1..], r.id, n + 1)
  {
  }

  lemma ApplyAllFirst(l: Ledger, ms: seq<Mutation>)
    requires ms != []
    ensures ApplyAll(l, ms) == match Apply(l, ms[0]) case Err(e) => Err(e) case Ok(l') => ApplyAll(l', ms[1..])
  {
    hide Apply;
  }

  lemma WriteFirst(l: Ledger, r: Record, events: seq<AuditEvent>, added: seq<AuditEvent>)
      returns (l1: Ledger)
    requires Writable(l, r, events, added) && added != []
    ensures ValidOpaque(added[0].actor) ==>
      && l1.records == l.records[r.id := Stored(r, events + [added[0]])]
      && l1.idempotency.Keys == l.idempotency.Keys + {Key(r.id, |events| + 1)}
      && Writable(l1, r, events + [added[0]], added[1..])
      && ApplyAll(l, Mutations(r, added, r.id, |events|))
         == ApplyAll(l1, Mutations(r, added[1..], r.id, |events| + 1))
    ensures !ValidOpaque(added[0].actor) ==>
      ApplyAll(l, Mutations(r, added, r.id, |events|)).Err?
  {
    hide Writable, Apply, ApplyAll, Seal, Key, ValidOpaque, Storable, BoundTo, Mutations, KeyRange, NextMutation, Continues, Issued;
    l1 := l;
    var e, n := added[0], |events|;
    var ms := Mutations(r, added, r.id, n);
    FirstIsIssued(l, r, events, added);
    MutationsFirst(r, added, n);
    ApplyGateEvent(l, r, events, e);
    ApplyAllFirst(l, ms);
    if ValidOpaque(e.actor) {
      l1 := Apply(l, ms[0]).value;
      WritableNext(l, l1, r, events, added);
    }
  }

  lemma FirstIsIssued(l: Ledger, r: Record, events: seq<AuditEvent>, added: seq<AuditEvent>)
    requires Writable(l, r, events, added) && added != []
    ensures Storable(r) && Continues(l, r, events) && Issued(added[0], r) && added[0].requestID == r.id
    ensures Key(r.id, |events| + 1) !in l.idempotency
  {
    hide Key, Continues;
    KeyRangeSplit(r.id, |events|, |events| + |added|);
  }

  lemma WritableNext(l: Ledger, l1: Ledger, r: Record, events: seq<AuditEvent>, added: seq<AuditEvent>)
    requires Writable(l, r, events, added) && added != []
    requires l1.records == l.records[r.id := Stored(r, events + [added[0]])]
    requires l1.idempotency.Keys == l.idempotency.Keys + {Key(r.id, |events| + 1)}
    ensures Writable(l1, r, events + [added[0]], added[1..])
  {
    hide Key, Seal, Storable, Issued, KeyRange;
    KeyRangeSplit(r.id, |events|, |events| + |added|);
  }

  /** A batch of gate events either extends the sealed chain by all of them or fails. */
  lemma {:induction false} WriteEvents(l: Ledger, r: Record, events: seq<AuditEvent>, added: seq<AuditEvent>)
    requires Writable(l, r, events, added) && added != []
    ensures ApplyAll(l, Mutations(r, added, r.id, |events|)).Ok? <==> AllActorsValid(added)
    ensures AllActorsValid(added) ==>
      var l' := ApplyAll(l, Mutations(r, added, r.id, |events|)).value;
      && l'.records == l.records[r.id := Stored(r, events + added)]
      && l'.idempotency.Keys == l.idempotency.Keys + KeyRange(r.id, |events|, |events| + |added|)
    decreases |added|
  {
    hide Apply, Seal, Stored, Writable, ValidOpaque, Key;
    var l1 := WriteFirst(l, r, events, added);
    var e, rest := added[0], added[1..];
    KeyRangeSplit(r.id, |events|, |events| + |added|);
    assert added == [e] + rest && events + [e] + rest == events + added;
    if ValidOpaque(e.actor) && rest != [] {
      WriteEvents(l1, r, events + [e], rest);
    } else if ValidOpaque(e.actor) {
      assert events + [e] == events + added;
    }
  }

  // ----- Persist keeps the ledger in step

  lemma {:induction false} EventsOfAppend(audit: seq<AuditEvent>, added: seq<AuditEvent>, id: string, owner: string)
    requires forall i | 0 <= i < |added| :: added[i].requestID == owner
    ensures EventsOf(audit + added, id) == EventsOf(audit, id) + if id == owner then added else []
  {
    hide EventsOf;
    if added == [] {
      assert audit + added == audit;
    } else {
      var n := |added| - 1;
      EventsOfAppend(audit, added[..n], id, owner);
      EventsOfLast(audit + added[..n], added[n], id);
      assert audit + added == audit + added[..n] + [added[n]];
      assert added == added[..n] + [added[n]];
    }
  }

  lemma EventsOfLast(audit: seq<AuditEvent>, e: AuditEvent, id: string)
    ensures EventsOf(audit + [e], id) == EventsOf(audit, id) + if e.requestID == id then [e] else []
  {
    assert (audit + [e])[..|audit|] == audit;
  }

  /** g is w's gate with one record changed and that record's new events logged. */
  ghost predicate Extends(w: World, g: Gate, id: string, added: seq<AuditEvent>) {
    && id in g.requests && g.requests[id].id == id && added != []
    && g.requests == w.gate.requests[id := g.requests[id]]
    && g.audit == w.gate.audit + added && g.durable == w.gate.durable
    && Storable(g.requests[id])
    && (forall i | 0 <= i < |added| :: Issued(added[i], g.requests[id]))
    && (id in w.gate.requests ==>
          && w.gate.requests[id].request == g.requests[id].request
          && w.gate.requests[id].expiresAt == g.requests[id].expiresAt)
    && (id !in w.gate.requests ==> EventsOf(w.gate.audit, id) == [])
  }

  lemma ExtensionIsWritable(w: World, g: Gate, id: string, added: seq<AuditEvent>)
    requires w.ledger.Some? && Mirrors(w.gate, w.ledger.value) && Extends(w, g, id, added)
    ensures Writable(w.ledger.value, g.requests[id], EventsOf(w.gate.audit, id), added)
    ensures DurableSequence(g, id) == |EventsOf(w.gate.audit, id)|
  {
    hide Key, Seal, Storable, Issued, EventsOf;
    if id in w.gate.requests {
      assert MirrorsRequest(w.gate, w.ledger.value, id);
    }
  }

  /** w' is w with the added events of g's one changed record written to the ledger. */
  ghost predicate Written(w: World, g: Gate, id: string, added: seq<AuditEvent>, w': World)
    requires id in g.requests && w.ledger.Some?
  {
    var before := EventsOf(w.gate.audit, id);
    && w'.gate == g.(durable := g.durable[id := |before| + |added|]) && w'.ledger.Some?
    && w'.ledger.value.records == w.ledger.value.records[id := Stored(g.requests[id], before + added)]
    && w'.ledger.value.idempotency.Keys
       == w.ledger.value.idempotency.Keys + KeyRange(id, |before|, |before| + |added|)
  }

  lemma PersistWrites(w: World, g: Gate, id: string, added: seq<AuditEvent>, refuse: bool)
    requires w.ledger.Some? && id in g.requests && g.requests[id].id == id && added != []
    requires g.audit == w.gate.audit + added
    requires DurableSequence(g, id) == |EventsOf(w.gate.audit, id)|
    requires Writable(w.ledger.value, g.requests[id], EventsOf(w.gate.audit, id), added)
    requires |Mutations(g.requests[id], added, id, DurableSequence(g, id))| == |added|
    ensures Persist(w, g, id, refuse).Ok? <==> !refuse && AllActorsValid(added)
    ensures Persist(w, g, id, refuse).Ok? ==>
      Written(w, g, id, added, Persist(w, g, id, refuse).value)
  {
    hide Writable, Stored, Mutations, ApplyAll, AllActorsValid, KeyRange, EventsOf;
    WriteEvents(w.ledger.value, g.requests[id], EventsOf(w.gate.audit, id), added);
    assert g.audit[|w.gate.audit|..] == added;
  }

  lemma EventsAfterExtension(w: World, g: Gate, id: string, added: seq<AuditEvent>, x: string)
    requires Extends(w, g, id, added)
    ensures EventsOf(g.audit, x)
         == if x == id then EventsOf(w.gate.audit, x) + added else EventsOf(w.gate.audit, x)
  {
    hide Storable, EventsOf;
    AddedBelong(w, g, id, added);
    EventsOfAppend(w.gate.audit, added, x, id);
  }

  lemma RequestAfterWrite(w: World, g: Gate, id: string, added: seq<AuditEvent>, w': World, x: string)
    requires w.ledger.Some? && Mirrors(w.gate, w.ledger.value) && Extends(w, g, id, added)
    requires Written(w, g, id, added, w')
    ensures x in g.requests ==> MirrorsRequest(w'.gate, w'.ledger.value, x)
    ensures DurableSequence(w'.gate, x) == |EventsOf(w'.gate.audit, x)|
  {
    hide Seal, Storable, KeyRange, Key, BoundTo, Issued, EventsOf;
    EventsAfterExtension(w, g, id, added, x);
    if x in g.requests && x != id { assert MirrorsRequest(w.gate, w.ledger.value, x); }
  }

  lemma KeysAfterWrite(w: World, g: Gate, id: string, added: seq<AuditEvent>, w': World, x: string, n: nat)
    requires w.ledger.Some? && Mirrors(w.gate, w.ledger.value) && Extends(w, g, id, added)
    requires Written(w, g, id, added, w') && n > DurableSequence(w'.gate, x)
    ensures Key(x, n) !in w'.ledger.value.idempotency
  {
    hide Seal, Storable, Stored, Key, EventsOf, BoundTo, Issued;
    var from := |EventsOf(w.gate.audit, id)|;
    assert n > DurableSequence(w.gate, x);
    if Key(x, n) in KeyRange(id, from, from + |added|) {
      var m :| from < m <= from + |added| && Key(id, m) == Key(x, n);
      KeyInjective(id, m, x, n);
    }
  }

  /** A write succeeds exactly when the store is willing and the actors are well formed,
      and then the ledger mirrors the new gate. */
  lemma PersistExtension(w: World, g: Gate, id: string, added: seq<AuditEvent>, refuse: bool)
    requires w.ledger.Some? && Mirrors(w.gate, w.ledger.value) && Extends(w, g, id, added)
    ensures Persist(w, g, id, refuse).Ok? <==> !refuse && AllActorsValid(added)
    ensures Persist(w, g, id, refuse).Ok? ==>
      var w' := Persist(w, g, id, refuse).value;
      && w'.ledger.Some? && Mirrors(w'.gate, w'.ledger.value)
      && w'.gate == g.(durable := w'.gate.durable)
  {
    hide Persist, Writable, Mutations, Seal, Stored, Storable, Key, EventsOf, BoundTo;
    ExtensionIsWritable(w, g, id, added);
    AddedBelong(w, g, id, added);
    MutationsOfOneRequest(g.requests[id], added, DurableSequence(g, id));
    hide Issued;
    PersistWrites(w, g, id, added, refuse);
    if Persist(w, g, id, refuse).Ok? {
      MirrorsAfterWrite(w, g, id, added, Persist(w, g, id, refuse).value);
    }
  }

  lemma AddedBelong(w: World, g: Gate, id: string, added: seq<AuditEvent>)
    requires Extends(w, g, id, added)
    ensures forall i | 0 <= i < |added| :: added[i].requestID == id
  {
  }

  lemma MirrorsAfterWrite(w: World, g: Gate, id: string, added: seq<AuditEvent>, w': World)
    requires w.ledger.Some? && Mirrors(w.gate, w.ledger.value) && Extends(w, g, id, added)
    requires Written(w, g, id, added, w')
    ensures Mirrors(w'.gate, w'.ledger.value)
  {
    hide Seal, Stored, Storable, Key, EventsOf, BoundTo, Issued, MirrorsRequest, DurableSequence;
    forall x: string
      ensures x in g.requests ==> MirrorsRequest(w'.gate, w'.ledger.value, x)
      ensures DurableSequence(w'.gate, x) == |EventsOf(w'.gate.audit, x)|
    {
      RequestAfterWrite(w, g, id, added, w', x);
    }
    forall x: string, n: nat | n > DurableSequence(w'.gate, x)
      ensures Key(x, n) !in w'.ledger.value.idempotency
    {
      KeysAfterWrite(w, g, id, added, w', x, n);
    }
  }
}
