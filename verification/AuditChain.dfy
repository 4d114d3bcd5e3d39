/** Audit events, hash-chained records and commits, with the journal and the
    spool that hold one stream of them. Hashes are symbolic: the digest of a
    record is the constructor that holds everything the source hashes. */
module AuditChain {
  import opened Wrappers

  datatype EventClass = Critical | Normal | OtherClass(text: string)
  datatype Outcome = Success | Failure | Denied | Started | OtherOutcome(text: string)

  datatype Event = Event(
    eventID: string, streamID: string, tenantID: string, actor: string, kind: string, action: string,
    resource: string, outcome: Outcome, correlationID: string, sessionID: string, leaseID: string,
    confirmationID: string, reason: string, evidenceDigest: string, policyEpoch: nat,
    class_: EventClass, at: nat)

  datatype Hash = NoHash | Sha(sequence: nat, event: Event, previous: Hash)

  datatype Record = Record(sequence: nat, event: Event, previousHash: Hash, hash: Hash)

  type Bytes = seq<bv8>

  datatype Checkpoint = Checkpoint(
    streamID: string, sequence: nat, hash: Hash, keyID: string, signature: Bytes, at: nat)

  datatype Target = Postgres | Worm | Siem | OtherTarget(text: string)

  /** deliveryID joins stream, sequence and target with slashes. */
  datatype DeliveryID = NoDelivery | DeliveryID(stream: string, sequence: nat, target: Target)

  datatype Delivery = Delivery(
    deliveryID: DeliveryID, target: Target, streamID: string, sequence: nat, eventID: string,
    recordHash: Hash, createdAt: nat, deliveredAt: nat)

  datatype Commit = Commit(record: Record, checkpoint: Option<Checkpoint>, outbox: seq<Delivery>)

  datatype Error =
    | InvalidEvent | InvalidRecord | CorruptChain | ReplayConflict | SequenceConflict
    | CheckpointInvalid | SignerUnavailable | NoDurableChannel | Unavailable | QueueFull
    | Closed | SpoolCorrupt | OutboxConflict | OutboxInvalid | Canceled

  datatype Status = Pass | Fail(error: Error)
  type Result<+T> = Try<T, Error>

  // ----- validation

  /** Nanoseconds from year 1 to the end of year 9999. */
  const END_OF_TIME: nat := 3_652_059 * 86_400 * 1_000_000_000

  predicate IDChar(c: char) {
    || 'a' <= c <= 'z' || 'A' <= c <= 'Z' || '0' <= c <= '9'
    || c == '.' || c == '_' || c == '-' || c == ':' || c == '@' || c == '/'
  }

  predicate ValidID(v: string) {
    && 0 < |v| <= 256
    && (forall i | 0 <= i < |v| :: IDChar(v[i]))
    && !(exists i | 0 <= i <= |v| - 3 :: v[i] == ':' && v[i + 1] == '/' && v[i + 2] == '/')
  }

  predicate ValidOptionalID(v: string) { v == "" || ValidID(v) }

  predicate IsHexDigest(v: string) {
    |v| == 64 && forall i | 0 <= i < 64 :: '0' <= v[i] <= '9' || 'a' <= v[i] <= 'f'
  }

  predicate ValidEvent(e: Event) {
    && ValidID(e.eventID) && ValidID(e.streamID) && ValidID(e.tenantID) && ValidID(e.actor)
    && ValidID(e.kind) && ValidID(e.action) && ValidID(e.resource)
    && ValidOptionalID(e.correlationID) && ValidOptionalID(e.sessionID) && ValidOptionalID(e.leaseID)
    && ValidOptionalID(e.confirmationID) && ValidOptionalID(e.reason)
    && !e.class_.OtherClass? && !e.outcome.OtherOutcome?
    && 0 < e.at < END_OF_TIME && e.policyEpoch != 0
    && (e.evidenceDigest != "" ==> IsHexDigest(e.evidenceDigest))
  }

  function HashRecord(r: Record): Hash { Sha(r.sequence, r.event, r.previousHash) }

  predicate ValidRecord(r: Record) {
    && r.sequence != 0 && r.hash.Sha? && ValidEvent(r.event)
    && (r.sequence == 1 ==> r.previousHash == NoHash) && (r.sequence > 1 ==> r.previousHash.Sha?)
    && HashRecord(r) == r.hash
  }

  predicate CheckpointShape(r: Record, cp: Checkpoint) {
    && cp.streamID == r.event.streamID && cp.sequence == r.sequence && cp.hash == r.hash
    && ValidID(cp.keyID) && |cp.signature| == 64 && cp.at != 0
  }

  predicate ValidDelivery(d: Delivery, r: Record) {
    && d.deliveryID != NoDelivery && !d.target.OtherTarget? && d.streamID == r.event.streamID
    && d.sequence == r.sequence && d.eventID == r.event.eventID && d.recordHash == r.hash
  }

  function ValidateCommit(c: Commit): Status {
    if !ValidRecord(c.record) then Fail(InvalidRecord)
    else if c.checkpoint.Some? && !CheckpointShape(c.record, c.checkpoint.value) then Fail(CheckpointInvalid)
    else if (exists i | 0 <= i < |c.outbox| :: !ValidDelivery(c.outbox[i], c.record))
            || (exists i, j | 0 <= i < j < |c.outbox| :: c.outbox[i].target == c.outbox[j].target)
    then Fail(OutboxInvalid)
    else Pass
  }

  predicate ValidCommit(c: Commit) { ValidateCommit(c).Pass? }

  // ----- verified streams

  function LastHash(cs: seq<Commit>): Hash {
    if cs == [] then NoHash else cs[|cs| - 1].record.hash
  }

  predicate Linked(cs: seq<Commit>, i: nat)
    requires i < |cs|
  {
    && cs[i].record.sequence == i + 1 && cs[i].record.previousHash == LastHash(cs[..i])
    && ValidCommit(cs[i])
  }

  /** verifyCommits: numbered from 1 without a gap, each chained to the one before. */
  predicate Verified(cs: seq<Commit>) {
    forall i: nat | i < |cs| :: Linked(cs, i)
  }

  predicate UniqueIDs(cs: seq<Commit>) {
    forall i, j | 0 <= i < j < |cs| :: cs[i].record.event.eventID != cs[j].record.event.eventID
  }

  function Records(cs: seq<Commit>): seq<Record> {
    seq(|cs|, i requires 0 <= i < |cs| => cs[i].record)
  }

  lemma VerifiedPrefix(cs: seq<Commit>, n: nat)
    requires n <= |cs| && Verified(cs)
    ensures Verified(cs[..n])
  {
    hide ValidCommit;
    forall i: nat | i < n
      ensures Linked(cs[..n], i)
    {
      assert Linked(cs, i) && cs[..n][..i] == cs[..i];
    }
  }

  lemma VerifiedAppend(cs: seq<Commit>, c: Commit)
    requires Verified(cs) && ValidCommit(c)
    requires c.record.sequence == |cs| + 1 && c.record.previousHash == LastHash(cs)
    ensures Verified(cs + [c])
  {
    hide ValidCommit;
    forall i: nat | i < |cs| + 1
      ensures Linked(cs + [c], i)
    {
      if i < |cs| {
        assert Linked(cs, i) && (cs + [c])[..i] == cs[..i];
      } else {
        assert (cs + [c])[..i] == cs;
      }
    }
  }

  /** A stream is tamper evident: the last hash of a verified stream fixes every
      record in it and their order. */
  lemma {:induction false} LastHashFixesRecords(cs1: seq<Commit>, cs2: seq<Commit>)
    requires Verified(cs1) && Verified(cs2) && LastHash(cs1) == LastHash(cs2)
    ensures Records(cs1) == Records(cs2)
    decreases |cs1|
  {
    hide ValidEvent, CheckpointShape, ValidDelivery;
    assert cs1 != [] ==> Linked(cs1, |cs1| - 1);
    assert cs2 != [] ==> Linked(cs2, |cs2| - 1);
    if cs1 != [] {
      var n1, n2 := |cs1| - 1, |cs2| - 1;
      VerifiedPrefix(cs1, n1);
      VerifiedPrefix(cs2, n2);
      LastHashFixesRecords(cs1[..n1], cs2[..n2]);
      assert Records(cs1) == Records(cs1[..n1]) + [cs1[n1].record];
      assert Records(cs2) == Records(cs2[..n2]) + [cs2[n2].record];
    }
  }

  // ----- the journal

  datatype Journal = Journal(commits: seq<Commit>, outbox: map<DeliveryID, Delivery>)

  predicate HasEvent(cs: seq<Commit>, id: string) {
    exists i | 0 <= i < |cs| :: cs[i].record.event.eventID == id
  }

  predicate OutboxClash(outbox: map<DeliveryID, Delivery>, ds: seq<Delivery>) {
    exists i | 0 <= i < |ds| :: ds[i].deliveryID in outbox && outbox[ds[i].deliveryID] != ds[i]
  }

  function Enqueue(outbox: map<DeliveryID, Delivery>, ds: seq<Delivery>): map<DeliveryID, Delivery> {
    if ds == [] then outbox
    else Enqueue(outbox, ds[..|ds| - 1])[ds[|ds| - 1].deliveryID := ds[|ds| - 1]]
  }

  /** MemoryJournal.Append on the stream of the commit. */
  function Append(j: Journal, c: Commit): (r: Result<Journal>)
    ensures r.Ok? ==> r.value == j || r.value.commits == j.commits + [c]
  {
    var n, rows := c.record.sequence, j.commits;
    if !ValidCommit(c) then Err(ValidateCommit(c).error)
    else if n <= |rows| then if n > 0 && rows[n - 1] == c then Ok(j) else Err(ReplayConflict)
    else if n != |rows| + 1 then Err(SequenceConflict)
    else if |rows| > 0 && c.record.previousHash != LastHash(rows) then Err(SequenceConflict)
    else if HasEvent(rows, c.record.event.eventID) then Err(ReplayConflict)
    else if OutboxClash(j.outbox, c.outbox) then Err(OutboxConflict)
    else Ok(Journal(rows + [c], Enqueue(j.outbox, c.outbox)))
  }

  /** Whatever is offered, a journal only grows at its end, stays verified and keeps
      its event IDs distinct. */
  lemma AppendKeepsStream(j: Journal, c: Commit)
    requires Verified(j.commits) && UniqueIDs(j.commits) && Append(j, c).Ok?
    ensures j.commits <= Append(j, c).value.commits
    ensures Verified(Append(j, c).value.commits) && UniqueIDs(Append(j, c).value.commits)
    ensures c in Append(j, c).value.commits
  {
    var j' := Append(j, c).value;
    if j' != j {
      assert ValidRecord(c.record);
      hide ValidEvent, CheckpointShape, ValidDelivery;
      VerifiedAppend(j.commits, c);
      assert (j.commits + [c])[|j.commits|] == c;
    } else {
      assert c == j.commits[c.record.sequence - 1];
    }
  }

  // ----- the spool, with encryption as the identity

  datatype Spool = Spool(items: seq<Commit>, fingerprints: map<string, Commit>)

  function Put(s: Spool, c: Commit): Result<Spool> {
    var id := c.record.event.eventID;
    if !ValidCommit(c) then Err(SpoolCorrupt)
    else if id in s.fingerprints then
      if s.fingerprints[id] == c then Ok(s) else Err(ReplayConflict)
    else Ok(Spool(s.items + [c], s.fingerprints[id := c]))
  }
}
