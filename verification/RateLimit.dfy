/** The per-endpoint rate limiter as seen from outside: which windows it tracks, what
    one call may do to them, and the plain fixed-window counter it stands for. */
module RateLimit {

  const EVICTION_BUDGET: nat := 8

  datatype Rule = Rule(id: string, requests: int, window: int)

  /** A tracked window. */
  datatype Slot = Slot(start: int, expiresAt: int, count: int)

  type View = map<string, Slot>

  datatype Decision = Admitted | QuotaRefused | CapacityRefused

  function MapKey(rule: Rule, key: string): string {
    rule.id + "|" + if key == "" then "anonymous" else key
  }

  ghost predicate EarliestFirst(v: View, v': View) {
    forall k, k' | k in v && k !in v' && k' in v' && k' in v :: v[k].expiresAt <= v[k'].expiresAt
  }

  /** expireLocked: up to eight windows leave, each due, the earliest first; if fewer
      than eight left, nothing due remains. */
  ghost predicate Evicts(v: View, v': View, now: int) {
    && v'.Keys <= v.Keys && (forall k | k in v' :: v'[k] == v[k])
    && |v.Keys - v'.Keys| <= EVICTION_BUDGET
    && (forall k | k in v && k !in v' :: v[k].expiresAt <= now)
    && EarliestFirst(v, v')
    && (|v.Keys - v'.Keys| < EVICTION_BUDGET ==> forall k | k in v' :: now < v'[k].expiresAt)
  }

  /** The rest of allow, once due windows have been expired. */
  function Decide(v: View, maxKeys: nat, rule: Rule, mapKey: string, now: int): (View, Decision) {
    if mapKey !in v then
      if |v| >= maxKeys then (v, CapacityRefused)
      else (v[mapKey := Slot(now, now + rule.window, 1)], Admitted)
    else
      var b := v[mapKey];
      if now - b.start >= rule.window then (v[mapKey := Slot(now, now + rule.window, 1)], Admitted)
      else if b.count >= rule.requests then (v, QuotaRefused)
      else (v[mapKey := b.(count := b.count + 1)], Admitted)
  }

  ghost predicate AllowStep(v: View, v': View, maxKeys: nat, rule: Rule, key: string, now: int, d: Decision) {
    exists kept :: Evicts(v, kept, now) && (v', d) == Decide(kept, maxKeys, rule, MapKey(rule, key), now)
  }

  lemma EvictionCount(v: View, kept: View, now: int)
    requires Evicts(v, kept, now)
    ensures |v| == |kept| + |v.Keys - kept.Keys|
    ensures |v| == |kept| ==> kept == v
  {
    hide EarliestFirst;
    assert v.Keys == kept.Keys + (v.Keys - kept.Keys);
    assert |v.Keys| == |kept.Keys| + |v.Keys - kept.Keys|;
    if |v| == |kept| { assert v.Keys - kept.Keys == {}; }
  }

  /** A call is refused for capacity only when the table is full of unexpired windows,
      and then nothing was evicted to no avail. */
  lemma CapacityRefusalIsJust(v: View, v': View, maxKeys: nat, rule: Rule, key: string, now: int)
    requires |v| <= maxKeys && AllowStep(v, v', maxKeys, rule, key, now, CapacityRefused)
    ensures v' == v && |v| == maxKeys && forall k | k in v :: now < v[k].expiresAt
  {
    hide EarliestFirst, MapKey, Evicts, Decide;
    var kept :| Evicts(v, kept, now)
      && (v', CapacityRefused) == Decide(kept, maxKeys, rule, MapKey(rule, key), now);
    RefusedMeansFull(kept, maxKeys, rule, MapKey(rule, key), now);
    EvictionCount(v, kept, now);
    NothingDue(v, now);
  }

  lemma RefusedMeansFull(v: View, maxKeys: nat, rule: Rule, mapKey: string, now: int)
    requires Decide(v, maxKeys, rule, mapKey, now).1 == CapacityRefused
    ensures Decide(v, maxKeys, rule, mapKey, now).0 == v && |v| >= maxKeys
  {
  }

  lemma NothingDue(v: View, now: int)
    ensures Evicts(v, v, now) ==> forall k | k in v :: now < v[k].expiresAt
  {
    hide EarliestFirst;
  }

  /** Unexpired windows survive every call, and the table stays within its capacity. */
  lemma UnexpiredSurvive(v: View, v': View, maxKeys: nat, rule: Rule, key: string, now: int, d: Decision)
    requires |v| <= maxKeys && AllowStep(v, v', maxKeys, rule, key, now, d)
    ensures |v'| <= maxKeys
    ensures forall k | k in v && now < v[k].expiresAt :: k in v' && (k != MapKey(rule, key) ==> v'[k] == v[k])
  {
    hide EarliestFirst, MapKey;
    var kept :| Evicts(v, kept, now) && (v', d) == Decide(kept, maxKeys, rule, MapKey(rule, key), now);
    EvictionCount(v, kept, now);
    DecideKeeps(kept, maxKeys, rule, MapKey(rule, key), now);
    hide Decide;
  }

  lemma DecideKeeps(v: View, maxKeys: nat, rule: Rule, mapKey: string, now: int)
    requires |v| <= maxKeys
    ensures var v' := Decide(v, maxKeys, rule, mapKey, now).0;
      |v'| <= maxKeys && forall k | k in v :: k in v' && (k != mapKey ==> v'[k] == v[k])
  {
    var v' := Decide(v, maxKeys, rule, mapKey, now).0;
    if mapKey in v { assert v'.Keys == v.Keys; }
  }

  // ----- the fixed-window counter that never forgets

  datatype Window = Window(start: int, count: int)
  type Counter = map<string, Window>

  function Count(c: Counter, rule: Rule, mapKey: string, now: int): (Counter, bool) {
    if mapKey !in c || now - c[mapKey].start >= rule.window then (c[mapKey := Window(now, 1)], true)
    else if c[mapKey].count >= rule.requests then (c, false)
    else (c[mapKey := Window(c[mapKey].start, c[mapKey].count + 1)], true)
  }

  /** The limiter's table agrees with the counter but for windows that are over. */
  ghost predicate Agrees(v: View, c: Counter, windows: string -> int, clock: int) {
    && v.Keys <= c.Keys
    && (forall k | k in v :: c[k] == Window(v[k].start, v[k].count)
          && v[k].expiresAt == v[k].start + windows(k))
    && (forall k | k in c && k !in v :: c[k].start + windows(k) <= clock)
  }

  datatype Call = Call(rule: Rule, key: string, now: int)

  /** Every refusal or admission that is not for capacity is the counter's own. */
  lemma StepRefines(v: View, v': View, maxKeys: nat, c: Counter, windows: string -> int, clock: int,
                    call: Call, d: Decision)
    requires Agrees(v, c, windows, clock) && clock <= call.now
    requires windows(MapKey(call.rule, call.key)) == call.rule.window
    requires AllowStep(v, v', maxKeys, call.rule, call.key, call.now, d)
    ensures d == CapacityRefused ==> Agrees(v', c, windows, call.now)
    ensures d != CapacityRefused ==>
      var (c', ok) := Count(c, call.rule, MapKey(call.rule, call.key), call.now);
      (d == Admitted <==> ok) && Agrees(v', c', windows, call.now)
  {
    var mk, now := MapKey(call.rule, call.key), call.now;
    hide EarliestFirst, MapKey;
    var kept :| Evicts(v, kept, now) && (v', d) == Decide(kept, maxKeys, call.rule, mk, now);
    KeptAgrees(v, kept, c, windows, clock, now);
    DecideAgrees(kept, maxKeys, c, windows, call, mk);
  }

  lemma KeptAgrees(v: View, kept: View, c: Counter, windows: string -> int, clock: int, now: int)
    requires Agrees(v, c, windows, clock) && clock <= now && Evicts(v, kept, now)
    ensures Agrees(kept, c, windows, now)
  {
    hide EarliestFirst;
  }

  lemma DecideAgrees(v: View, maxKeys: nat, c: Counter, windows: string -> int, call: Call, mk: string)
    requires Agrees(v, c, windows, call.now) && windows(mk) == call.rule.window
    ensures var (v', d) := Decide(v, maxKeys, call.rule, mk, call.now);
      if d == CapacityRefused then Agrees(v', c, windows, call.now)
      else var (c', ok) := Count(c, call.rule, mk, call.now);
        (d == Admitted <==> ok) && Agrees(v', c', windows, call.now)
  {
  }

  // ----- runs

  /** A run: views[i] becomes views[i+1] by calls[i], which is answered decisions[i]. */
  ghost predicate IsRun(views: seq<View>, calls: seq<Call>, decisions: seq<Decision>, maxKeys: nat) {
    && |views| == |calls| + 1 && |decisions| == |calls| && views[0] == map[]
    && forall i | 0 <= i < |calls| ::
         AllowStep(views[i], views[i + 1], maxKeys, calls[i].rule, calls[i].key, calls[i].now, decisions[i])
  }

  ghost predicate Clocked(calls: seq<Call>) {
    forall i, j | 0 <= i < j < |calls| :: calls[i].now <= calls[j].now
  }

  /** A map key determines its window; quotas may differ, for both sides read them from the call. */
  ghost predicate Configured(calls: seq<Call>, windows: string -> int) {
    forall i | 0 <= i < |calls| :: windows(MapKey(calls[i].rule, calls[i].key)) == calls[i].rule.window
  }

  /** The counter after the first n calls, skipping those refused for capacity. */
  ghost function CounterAfter(calls: seq<Call>, decisions: seq<Decision>, n: nat): Counter
    requires n <= |calls| == |decisions|
  {
    if n == 0 then map[]
    else
      var c, call := CounterAfter(calls, decisions, n - 1), calls[n - 1];
      if decisions[n - 1] == CapacityRefused then c
      else Count(c, call.rule, MapKey(call.rule, call.key), call.now).0
  }

  ghost function ClockAt(calls: seq<Call>, n: nat): int
    requires n <= |calls|
  {
    if n == 0 then (if calls == [] then 0 else calls[0].now) else calls[n - 1].now
  }

  lemma {:induction false} RunAgrees(views: seq<View>, calls: seq<Call>, decisions: seq<Decision>, maxKeys: nat,
                                     windows: string -> int, n: nat)
    requires IsRun(views, calls, decisions, maxKeys) && Clocked(calls) && Configured(calls, windows) && n <= |calls|
    ensures Agrees(views[n], CounterAfter(calls, decisions, n), windows, ClockAt(calls, n))
    ensures |views[n]| <= maxKeys
  {
    hide AllowStep, Count;
    if n > 0 {
      RunAgrees(views, calls, decisions, maxKeys, windows, n - 1);
      var call := calls[n - 1];
      StepRefines(views[n - 1], views[n], maxKeys, CounterAfter(calls, decisions, n - 1), windows,
                  ClockAt(calls, n - 1), call, decisions[n - 1]);
      UnexpiredSurvive(views[n - 1], views[n], maxKeys, call.rule, call.key, call.now, decisions[n - 1]);
    }
  }

  /** In every run with a non-decreasing clock, each decision that is not a capacity refusal
      is the one the simple counter takes. */
  lemma LimiterRefinesCounter(views: seq<View>, calls: seq<Call>, decisions: seq<Decision>, maxKeys: nat,
                              windows: string -> int, i: nat)
    requires IsRun(views, calls, decisions, maxKeys) && Clocked(calls) && Configured(calls, windows)
    requires i < |calls| && decisions[i] != CapacityRefused
    ensures decisions[i] == Admitted <==>
      Count(CounterAfter(calls, decisions, i), calls[i].rule, MapKey(calls[i].rule, calls[i].key), calls[i].now).1
  {
    hide AllowStep, Count;
    RunAgrees(views, calls, decisions, maxKeys, windows, i);
    StepRefines(views[i], views[i + 1], maxKeys, CounterAfter(calls, decisions, i), windows,
                ClockAt(calls, i), calls[i], decisions[i]);
  }

  lemma {:induction false} RunWithinCapacity(views: seq<View>, calls: seq<Call>, decisions: seq<Decision>, maxKeys: nat,
                                             n: nat)
    requires IsRun(views, calls, decisions, maxKeys) && n <= |calls|
    ensures |views[n]| <= maxKeys
  {
    hide AllowStep;
    if n > 0 {
      RunWithinCapacity(views, calls, decisions, maxKeys, n - 1);
      var call := calls[n - 1];
      UnexpiredSurvive(views[n - 1], views[n], maxKeys, call.rule, call.key, call.now, decisions[n - 1]);
    }
  }

  /** Every capacity refusal of every run met a table full of unexpired windows and left it alone. */
  lemma CapacityRefusalsAreJust(views: seq<View>, calls: seq<Call>, decisions: seq<Decision>, maxKeys: nat, i: nat)
    requires IsRun(views, calls, decisions, maxKeys) && i < |calls| && decisions[i] == CapacityRefused
    ensures views[i + 1] == views[i] && |views[i]| == maxKeys
    ensures forall k | k in views[i] :: calls[i].now < views[i][k].expiresAt
  {
    hide AllowStep;
    RunWithinCapacity(views, calls, decisions, maxKeys, i);
    CapacityRefusalIsJust(views[i], views[i + 1], maxKeys, calls[i].rule, calls[i].key, calls[i].now);
  }

  // ----- how many calls an interval can see admitted

  ghost predicate AdmittedIn(calls: seq<Call>, decisions: seq<Decision>, i: nat, mapKey: string, from: int, to: int)
    requires i < |calls| == |decisions|
  {
    decisions[i] == Admitted && MapKey(calls[i].rule, calls[i].key) == mapKey && from <= calls[i].now < to
  }

  /** Admissions of one key at times in [from, to) among the first n calls. */
  ghost function Admissions(calls: seq<Call>, decisions: seq<Decision>, n: nat, mapKey: string, from: int, to: int): nat
    requires n <= |calls| == |decisions|
  {
    if n == 0 then 0
    else Admissions(calls, decisions, n - 1, mapKey, from, to)
         + if AdmittedIn(calls, decisions, n - 1, mapKey, from, to) then 1 else 0
  }

  /** What the current window of a key allows the interval [from, from + window) so far: its own
      count, after at most one earlier window that reached into the interval. */
  ghost predicate WithinBound(c: Counter, mapKey: string, window: int, most: int, from: int, clock: int, n: nat) {
    if mapKey !in c then n == 0
    else
      var w := c[mapKey];
      && 1 <= w.count <= most && w.start <= clock
      && (clock < from ==> n == 0)
      && (if w.start < from then n <= w.count
          else if w.start < from + window then n <= most + w.count
          else n <= 2 * most)
  }

  lemma CountKeepsBound(c: Counter, mapKey: string, rule: Rule, most: int, from: int, clock: int, n: nat, now: int)
    requires WithinBound(c, mapKey, rule.window, most, from, clock, n) && clock <= now && rule.requests <= most && 1 <= most
    ensures var (c', ok) := Count(c, rule, mapKey, now);
      WithinBound(c', mapKey, rule.window, most, from, now, n + if ok && from <= now < from + rule.window then 1 else 0)
  {
  }

  /** Every call that counts under the map key has a quota of at most `most`. */
  ghost predicate QuotaAtMost(calls: seq<Call>, mapKey: string, most: int) {
    forall i | 0 <= i < |calls| && MapKey(calls[i].rule, calls[i].key) == mapKey :: calls[i].rule.requests <= most
  }

  lemma {:induction false} RunWithinBound(views: seq<View>, calls: seq<Call>, decisions: seq<Decision>, maxKeys: nat,
                                          windows: string -> int, mapKey: string, most: int, from: int, n: nat)
    requires IsRun(views, calls, decisions, maxKeys) && Clocked(calls) && Configured(calls, windows) && n <= |calls|
    requires QuotaAtMost(calls, mapKey, most) && 1 <= most
    ensures WithinBound(CounterAfter(calls, decisions, n), mapKey, windows(mapKey), most, from, ClockAt(calls, n),
                        Admissions(calls, decisions, n, mapKey, from, from + windows(mapKey)))
  {
    hide AllowStep, MapKey;
    if n > 0 {
      RunWithinBound(views, calls, decisions, maxKeys, windows, mapKey, most, from, n - 1);
      var call, c := calls[n - 1], CounterAfter(calls, decisions, n - 1);
      var m := Admissions(calls, decisions, n - 1, mapKey, from, from + windows(mapKey));
      if decisions[n - 1] != CapacityRefused {
        LimiterRefinesCounter(views, calls, decisions, maxKeys, windows, n - 1);
        if MapKey(call.rule, call.key) == mapKey {
          CountKeepsBound(c, mapKey, call.rule, most, from, ClockAt(calls, n - 1), m, call.now);
        }
      }
    }
  }

  /** No key is admitted more than twice the largest quota it is called with (or twice, for quotas
      below one) in any half-open interval as long as its window. */
  lemma AdmissionsAreBounded(views: seq<View>, calls: seq<Call>, decisions: seq<Decision>, maxKeys: nat,
                             windows: string -> int, mapKey: string, most: int, from: int)
    requires IsRun(views, calls, decisions, maxKeys) && Clocked(calls) && Configured(calls, windows)
    requires QuotaAtMost(calls, mapKey, most) && 1 <= most
    ensures Admissions(calls, decisions, |calls|, mapKey, from, from + windows(mapKey)) <= 2 * most
  {
    RunWithinBound(views, calls, decisions, maxKeys, windows, mapKey, most, from, |calls|);
  }

  // ----- AllowRequests

  ghost predicate AllAdmitted(ds: seq<Decision>) { forall i | 0 <= i < |ds| :: ds[i] == Admitted }

  lemma AllAdmittedAppend(ds: seq<Decision>, d: Decision)
    ensures AllAdmitted(ds + [d]) <==> AllAdmitted(ds) && d == Admitted
  {
    assert (ds + [d])[|ds|] == d;
    if AllAdmitted(ds + [d]) { assert forall i | 0 <= i < |ds| :: ds[i] == (ds + [d])[i]; }
  }

  /** One identity of a request: missing, without a URL or with a path that has no safe reading, or usable. */
  datatype Identity = Missing | Malformed | Usable

  /** A rule matches the request through one of its usable identities. */
  ghost predicate MatchedBy(identities: seq<Identity>, row: seq<bool>)
    requires |row| == |identities|
  {
    exists i | 0 <= i < |row| :: identities[i] == Usable && row[i]
  }

  /** Which rules a request with several identities is charged to: each rule that any
      identity matches, once, in rule order. */
  ghost function Charged(rules: seq<Rule>, identities: seq<Identity>, matches: seq<seq<bool>>, key: string, times: seq<int>)
    : seq<Call>
    requires |rules| == |matches| == |times| && forall r | 0 <= r < |matches| :: |matches[r]| == |identities|
  {
    if rules == [] then []
    else
      var n := |rules| - 1;
      Charged(rules[..n], identities, matches[..n], key, times[..n])
      + if MatchedBy(identities, matches[n]) then [Call(rules[n], key, times[n])] else []
  }

  /** A malformed identity has the request refused before anything is charged. */
  ghost function ChargedFor(rules: seq<Rule>, identities: seq<Identity>, matches: seq<seq<bool>>, key: string, times: seq<int>)
    : seq<Call>
    requires |rules| == |matches| == |times| && forall r | 0 <= r < |matches| :: |matches[r]| == |identities|
  {
    if Malformed in identities then [] else Charged(rules, identities, matches, key, times)
  }
}
