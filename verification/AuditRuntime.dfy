/** The audit runtime on values: persisting one event through journal or spool,
    and replaying the spool once the journal is back. External calls may fail:
    fault number k says how the k-th call of an operation fares. */
module AuditRuntime {
  import opened Wrappers
  import opened AuditChain

  /** A journal or spool call works, reports ErrUnavailable, or fails otherwise; a
      failing call has no effect. */
  datatype Fault = Works | Down | Broken

  function FaultAt(faults: seq<Fault>, k: nat): Fault { if k < |faults| then faults[k] else Works }

  /** The configuration of a runtime; sign and verifies stand for Ed25519. */
  datatype Config = Config(
    stream: string, journalDurable: bool, hasSpool: bool, spoolDurable: bool,
    keyID: Option<string>, sign: Checkpoint -> Option<Bytes>,
    hasVerifiers: bool, verifies: Checkpoint -> bool,
    targets: seq<Target>, checkpointEvery: nat)

  datatype Runtime = Runtime(
    journal: Journal, spool: Spool, head: Record, events: map<string, Record>, spooling: bool)

  const NO_EVENT: Event :=
    Event("", "", "", "", "", "", "", OtherOutcome(""), "", "", "", "", "", "", 0, OtherClass(""), 0)
  const NO_RECORD: Record := Record(0, NO_EVENT, NoHash, NoHash)

  function HeadOf(cs: seq<Commit>): Record {
    if cs == [] then NO_RECORD else cs[|cs| - 1].record
  }

  // ----- building a commit

  function NextRecord(head: Record, event: Event): Record {
    var r := Record(head.sequence + 1, event, head.hash, NoHash);
    r.(hash := HashRecord(r))
  }

  predicate NeedsCheckpoint(cfg: Config, event: Event, rec: Record) {
    && cfg.keyID.Some?
    && (event.class_ == Critical || (cfg.checkpointEvery > 0 && rec.sequence % cfg.checkpointEvery == 0))
  }

  function MakeCheckpoint(cfg: Config, event: Event, rec: Record, now: nat): Result<Option<Checkpoint>> {
    if !NeedsCheckpoint(cfg, event, rec) then Ok(None)
    else
      var cp := Checkpoint(cfg.stream, rec.sequence, rec.hash, cfg.keyID.value, [], now);
      match cfg.sign(cp)
      case None => Err(SignerUnavailable)
      case Some(sig) => Ok(Some(cp.(signature := sig)))
  }

  predicate VerifiesCheckpoint(cfg: Config, rec: Record, cp: Checkpoint) {
    ValidRecord(rec) && rec.event.streamID == cfg.stream && CheckpointShape(rec, cp) && cfg.verifies(cp)
  }

  function Deliveries(cfg: Config, rec: Record, now: nat): seq<Delivery> {
    seq(|cfg.targets|, i requires 0 <= i < |cfg.targets| =>
      Delivery(DeliveryID(cfg.stream, rec.sequence, cfg.targets[i]), cfg.targets[i], cfg.stream,
               rec.sequence, rec.event.eventID, rec.hash, now, 0))
  }

  function MakeCommit(cfg: Config, head: Record, event: Event, now: nat): Result<Commit> {
    var rec := NextRecord(head, event);
    match MakeCheckpoint(cfg, event, rec, now)
    case Err(e) => Err(e)
    case Ok(cp) =>
      if cp.Some? && cfg.hasVerifiers && !VerifiesCheckpoint(cfg, rec, cp.value) then Err(CheckpointInvalid)
      else Ok(Commit(rec, cp, Deliveries(cfg, rec, now)))
  }

  // ----- persist

  function JournalAppend(j: Journal, c: Commit, fault: Fault): Result<Journal> {
    match fault
    case Down => Err(Unavailable)
    case Broken => Err(Canceled)
    case Works => Append(j, c)
  }

  function SpoolPut(s: Spool, c: Commit, fault: Fault): Result<Spool> {
    if fault != Works then Err(Canceled) else Put(s, c)
  }

  function Advance(st: Runtime, rec: Record): Runtime {
    st.(head := rec, events := st.events[rec.event.eventID := rec])
  }

  /** The retry loop of persist, from attempt number k. */
  function Attempt(cfg: Config, st: Runtime, event: Event, now: nat, faults: seq<Fault>, k: nat)
    : (Runtime, Result<Record>)
    requires k <= 8
    decreases 8 - k
  {
    if k == 8 then (st, Err(SequenceConflict))
    else match MakeCommit(cfg, st.head, event, now)
         case Err(e) => (st, Err(e))
         case Ok(c) =>
           if st.spooling then
             if !cfg.hasSpool || (!cfg.spoolDurable && event.class_ == Critical)
             then (st, Err(NoDurableChannel))
             else match SpoolPut(st.spool, c, FaultAt(faults, k))
                  case Err(e) => (st, Err(e))
                  case Ok(s) => (Advance(st.(spool := s), c.record), Ok(c.record))
           else match JournalAppend(st.journal, c, FaultAt(faults, k))
                case Ok(j) => (Advance(st.(journal := j), c.record), Ok(c.record))
                case Err(e) =>
                  if e == SequenceConflict then
                    Attempt(cfg, st.(head := HeadOf(st.journal.commits)), event, now, faults, k + 1)
                  else if e == Unavailable && cfg.hasSpool && cfg.spoolDurable then
                    Attempt(cfg, st.(spooling := true), event, now, faults, k + 1)
                  else (st, Err(e))
  }

  function Persist(cfg: Config, st: Runtime, event: Event, now: nat, faults: seq<Fault>)
    : (Runtime, Result<Record>)
  {
    if event.eventID in st.events then
      var prior := st.events[event.eventID];
      (st, if prior.event == event then Ok(prior) else Err(ReplayConflict))
    else Attempt(cfg, st, event, now, faults, 0)
  }

  /** Append of a critical event, once the runtime is idle and open. */
  function AppendCritical(cfg: Config, st: Runtime, event: Event, now: nat, faults: seq<Fault>)
    : (Runtime, Result<Record>)
  {
    if !ValidEvent(event) || event.streamID != cfg.stream then (st, Err(InvalidEvent))
    else if cfg.keyID.None? then (st, Err(SignerUnavailable))
    else if !cfg.journalDurable && (!cfg.hasSpool || !cfg.spoolDurable) then (st, Err(NoDurableChannel))
    else Persist(cfg, st, event, now, faults)
  }

  // ----- Replay

  /** The loop of Replay over the spool entries read at its start; entry i uses
      fault 2i for the journal and 2i+1 for the acknowledgement. */
  function ReplayFrom(cfg: Config, st: Runtime, entries: seq<Commit>, faults: seq<Fault>, i: nat)
    : (Runtime, Status)
    requires i <= |entries|
    decreases |entries| - i
  {
    if i == |entries| then (st.(spooling := !cfg.journalDurable), Pass)
    else
      var c := entries[i];
      if !ValidCommit(c) then (st, Fail(SpoolCorrupt))
      else
        var appended := JournalAppend(st.journal, c, FaultAt(faults, 2 * i));
        if appended.Err? && appended.error != ReplayConflict then (st, Fail(appended.error))
        else
          var st1 := if appended.Ok? then st.(journal := appended.value) else st;
          var st2 := if c.record.sequence > st1.head.sequence then Advance(st1, c.record) else st1;
          if cfg.journalDurable && FaultAt(faults, 2 * i + 1) != Works then (st2, Fail(Canceled))
          else ReplayFrom(cfg, st2, entries, faults, i + 1)
  }

  function Replay(cfg: Config, st: Runtime, faults: seq<Fault>): (Runtime, Status) {
    if !cfg.hasSpool then (st, Pass) else ReplayFrom(cfg, st, st.spool.items, faults, 0)
  }

  // ----- starting, and runs

  function Learned(cs: seq<Commit>): map<string, Record> {
    if cs == [] then map[]
    else
      var r := cs[|cs| - 1].record;
      Learned(cs[..|cs| - 1])[r.event.eventID := r]
  }

  /** NewRuntime over an existing journal and spool. */
  function Open(cfg: Config, journal: Journal, spool: Spool): Runtime {
    Runtime(journal, spool, HeadOf(journal.commits), Learned(journal.commits),
            !cfg.journalDurable && cfg.hasSpool)
  }

  datatype Op =
    | PersistOp(event: Event, now: nat, faults: seq<Fault>)
    | ReplayOp(faults: seq<Fault>)

  function Step(cfg: Config, st: Runtime, op: Op): Runtime {
    match op
    case PersistOp(event, now, faults) => Persist(cfg, st, event, now, faults).0
    case ReplayOp(faults) => Replay(cfg, st, faults).0
  }

  function After(cfg: Config, st: Runtime, ops: seq<Op>): Runtime {
    if ops == [] then st else Step(cfg, After(cfg, st, ops[..|ops| - 1]), ops[|ops| - 1])
  }
}
