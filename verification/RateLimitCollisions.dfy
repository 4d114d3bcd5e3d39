/** Which rules can share a window, and exactly when the limiter stands for the counter nevertheless. */
module RateLimitCollisions {
  import opened RateLimit

  // ----- when two rules can have one map key

  /** Equal IDs, or one that goes on with the separator where the other ends. */
  predicate Related(id1: string, id2: string) {
    id1 == id2 || id1 + "|" <= id2 || id2 + "|" <= id1
  }

  ghost predicate Collide(r1: Rule, r2: Rule) {
    exists k1, k2 :: MapKey(r1, k1) == MapKey(r2, k2)
  }

  lemma SameKeyIsRelated(r1: Rule, k1: string, r2: Rule, k2: string)
    requires MapKey(r1, k1) == MapKey(r2, k2) && |r1.id| <= |r2.id|
    ensures Related(r1.id, r2.id)
  {
    var s, n1, n2 := MapKey(r1, k1), |r1.id|, |r2.id|;
    assert s[..n1] == r1.id && s[n1] == '|' && s[..n2] == r2.id;
    if n1 < n2 { assert r2.id[..n1 + 1] == r1.id + "|"; }
  }

  lemma LongerIDCollides(r1: Rule, r2: Rule) returns (k1: string, k2: string)
    requires r1.id + "|" <= r2.id
    ensures MapKey(r1, k1) == MapKey(r2, k2)
  {
    var rest := r2.id[|r1.id| + 1..];
    k1, k2 := rest + "|x", "x";
    assert r2.id == r1.id + "|" + rest;
    assert MapKey(r1, k1) == r1.id + "|" + (rest + "|x") == (r1.id + "|" + rest) + "|" + "x";
  }

  /** Some callers of two rules share a window if and only if their IDs are related. */
  lemma CollideIffRelated(r1: Rule, r2: Rule)
    ensures Collide(r1, r2) <==> Related(r1.id, r2.id)
  {
    if Collide(r1, r2) {
      var k1, k2 :| MapKey(r1, k1) == MapKey(r2, k2);
      if |r1.id| <= |r2.id| { SameKeyIsRelated(r1, k1, r2, k2); } else { SameKeyIsRelated(r2, k2, r1, k1); }
    }
    if r1.id == r2.id {
      assert MapKey(r1, "x") == MapKey(r2, "x");
    } else if r1.id + "|" <= r2.id {
      var k1, k2 := LongerIDCollides(r1, r2);
    } else if r2.id + "|" <= r1.id {
      var k2, k1 := LongerIDCollides(r2, r1);
    }
  }

  // ----- when sharing does no harm

  ghost predicate Uses(calls: seq<Call>, rules: set<Rule>) { forall i | 0 <= i < |calls| :: calls[i].rule in rules }

  /** Related rules have equal windows: something to check on a configuration. */
  ghost predicate Compatible(rules: set<Rule>) {
    forall r1, r2 | r1 in rules && r2 in rules && Related(r1.id, r2.id) :: r1.window == r2.window
  }

  /** Every decision of a run that is not for capacity is the counter's. */
  ghost predicate Refines(calls: seq<Call>, decisions: seq<Decision>)
    requires |calls| == |decisions|
  {
    forall i | 0 <= i < |calls| && decisions[i] != CapacityRefused ::
      decisions[i] == Admitted <==> CounterAdmits(calls, decisions, i)
  }

  ghost predicate CounterAdmits(calls: seq<Call>, decisions: seq<Decision>, i: nat)
    requires i < |calls| == |decisions|
  {
    Count(CounterAfter(calls, decisions, i), calls[i].rule, MapKey(calls[i].rule, calls[i].key), calls[i].now).1
  }

  ghost predicate AlwaysRefines(rules: set<Rule>, maxKeys: nat) {
    forall views, calls, decisions | IsRun(views, calls, decisions, maxKeys) && Clocked(calls) && Uses(calls, rules) ::
      Refines(calls, decisions)
  }

  /** The window of the first call with that map key. */
  ghost function WindowFor(calls: seq<Call>, mapKey: string): int {
    if calls == [] then 0
    else if MapKey(calls[0].rule, calls[0].key) == mapKey then calls[0].rule.window
    else WindowFor(calls[1..], mapKey)
  }

  lemma {:induction false} CompatibleConfigures(calls: seq<Call>, rules: set<Rule>)
    requires Uses(calls, rules) && Compatible(rules)
    ensures Configured(calls, mapKey => WindowFor(calls, mapKey))
  {
    hide MapKey, Related, Compatible;
    forall i | 0 <= i < |calls|
      ensures WindowFor(calls, MapKey(calls[i].rule, calls[i].key)) == calls[i].rule.window
    {
      var c, d := calls[i], calls[0];
      if MapKey(d.rule, d.key) == MapKey(c.rule, c.key) {
        SharedWindow(rules, c, d);
      } else {
        CompatibleConfigures(calls[1..], rules);
        var windows: string -> int := mapKey => WindowFor(calls[1..], mapKey);
        assert Configured(calls[1..], windows) && calls[1..][i - 1] == c;
        assert windows(MapKey(c.rule, c.key)) == c.rule.window;
      }
    }
  }

  lemma SharedWindow(rules: set<Rule>, c: Call, d: Call)
    requires Compatible(rules) && c.rule in rules && d.rule in rules
    requires MapKey(d.rule, d.key) == MapKey(c.rule, c.key)
    ensures d.rule.window == c.rule.window
  {
    assert Collide(d.rule, c.rule);
    hide MapKey, Related;
    CollideIffRelated(d.rule, c.rule);
  }

  lemma CompatibleRefines(rules: set<Rule>, maxKeys: nat)
    requires Compatible(rules)
    ensures AlwaysRefines(rules, maxKeys)
  {
    hide Compatible, IsRun, Clocked, Uses, CounterAdmits;
    forall views, calls, decisions | IsRun(views, calls, decisions, maxKeys) && Clocked(calls) && Uses(calls, rules)
      ensures |calls| == |decisions| && Refines(calls, decisions)
    {
      RunLengths(views, calls, decisions, maxKeys);
      CompatibleConfigures(calls, rules);
      forall i | 0 <= i < |calls| && decisions[i] != CapacityRefused
        ensures decisions[i] == Admitted <==> CounterAdmits(calls, decisions, i)
      {
        RefinesAt(views, calls, decisions, maxKeys, mapKey => WindowFor(calls, mapKey), i);
      }
    }
  }

  lemma RunLengths(views: seq<View>, calls: seq<Call>, decisions: seq<Decision>, maxKeys: nat)
    requires IsRun(views, calls, decisions, maxKeys)
    ensures |views| == |calls| + 1 && |decisions| == |calls|
  {
  }

  lemma RefinesAt(views: seq<View>, calls: seq<Call>, decisions: seq<Decision>, maxKeys: nat, windows: string -> int, i: nat)
    requires IsRun(views, calls, decisions, maxKeys) && Clocked(calls) && Configured(calls, windows)
    requires i < |calls| && decisions[i] != CapacityRefused
    ensures decisions[i] == Admitted <==> CounterAdmits(calls, decisions, i)
  {
    hide AllowStep, Count;
    LimiterRefinesCounter(views, calls, decisions, maxKeys, windows, i);
  }

  // ----- when it does

  /** Two callers of one map key, the first with the shorter window: one call of the first rule at 0,
      calls of the second at 0 until its quota is full, and one more when the first window ends. */
  ghost function ClashCalls(short: Call, long: Call): seq<Call>
    requires long.rule.requests >= 1
  {
    seq(long.rule.requests + 1, i requires 0 <= i < long.rule.requests + 1 =>
      if i == 0 then short.(now := 0)
      else if i < long.rule.requests then long.(now := 0)
      else long.(now := short.rule.window))
  }

  ghost function ClashView(short: Call, long: Call, i: nat): View {
    var mk := MapKey(long.rule, long.key);
    if i == 0 then map[]
    else if i <= long.rule.requests then map[mk := Slot(0, short.rule.window, i)]
    else map[mk := Slot(short.rule.window, short.rule.window + long.rule.window, 1)]
  }

  ghost function ClashViews(short: Call, long: Call): seq<View>
    requires long.rule.requests >= 1
  {
    seq(long.rule.requests + 2, i requires 0 <= i < long.rule.requests + 2 => ClashView(short, long, i))
  }

  ghost function AllYes(n: nat): seq<Decision> { seq(n, i => Admitted) }

  ghost predicate Clashing(short: Call, long: Call) {
    && MapKey(short.rule, short.key) == MapKey(long.rule, long.key)
    && 0 < short.rule.window < long.rule.window && long.rule.requests >= 1
  }

  lemma StepWitness(v: View, kept: View, v': View, maxKeys: nat, call: Call)
    requires Evicts(v, kept, call.now)
    requires (v', Admitted) == Decide(kept, maxKeys, call.rule, MapKey(call.rule, call.key), call.now)
    ensures AllowStep(v, v', maxKeys, call.rule, call.key, call.now, Admitted)
  {
  }

  lemma EvictsNothing(v: View, now: int)
    requires forall k | k in v :: now < v[k].expiresAt
    ensures Evicts(v, v, now)
  {
    assert v.Keys - v.Keys == {};
  }

  lemma EvictsOnly(mk: string, slot: Slot, now: int)
    requires slot.expiresAt <= now
    ensures Evicts(map[mk := slot], map[], now)
  {
    var v: View, none: View := map[mk := slot], map[];
    assert v.Keys - none.Keys == {mk};
  }

  lemma ClashStep(short: Call, long: Call, maxKeys: nat, i: nat)
    requires Clashing(short, long) && maxKeys >= 1 && i < long.rule.requests + 1
    ensures var call := ClashCalls(short, long)[i];
      AllowStep(ClashView(short, long, i), ClashView(short, long, i + 1), maxKeys, call.rule, call.key, call.now, Admitted)
  {
    hide MapKey, AllowStep, Evicts;
    var call, v, v' := ClashCalls(short, long)[i], ClashView(short, long, i), ClashView(short, long, i + 1);
    var mk := MapKey(long.rule, long.key);
    if i < long.rule.requests {
      EvictsNothing(v, 0);
      if i > 0 { assert v[mk := Slot(0, short.rule.window, i + 1)] == v'; }
      StepWitness(v, v, v', maxKeys, call);
    } else {
      EvictsOnly(mk, v[mk], short.rule.window);
      StepWitness(v, map[], v', maxKeys, call);
    }
  }

  lemma {:induction false} ClashCounter(short: Call, long: Call, n: nat)
    requires Clashing(short, long) && 1 <= n <= long.rule.requests
    ensures var calls := ClashCalls(short, long);
      CounterAfter(calls, AllYes(|calls|), n) == map[MapKey(long.rule, long.key) := Window(0, n)]
  {
    hide MapKey;
    var calls := ClashCalls(short, long);
    assert CounterAfter(calls, AllYes(|calls|), 0) == map[];
    if n > 1 { ClashCounter(short, long, n - 1); }
  }

  /** Callers of one map key with different windows: this run admits what the counter refuses. */
  lemma ClashBreaks(short: Call, long: Call, maxKeys: nat)
    requires Clashing(short, long) && maxKeys >= 1
    ensures var calls := ClashCalls(short, long); var yes := AllYes(|calls|);
      && IsRun(ClashViews(short, long), calls, yes, maxKeys) && Clocked(calls)
      && !CounterAdmits(calls, yes, long.rule.requests)
  {
    var calls := ClashCalls(short, long);
    ClashCounter(short, long, long.rule.requests);
    hide MapKey, AllowStep, ClashView;
    assert ClashViews(short, long)[0] == map[] by { FirstView(short, long); }
    forall i | 0 <= i < |calls|
      ensures AllowStep(ClashViews(short, long)[i], ClashViews(short, long)[i + 1], maxKeys, calls[i].rule, calls[i].key,
                        calls[i].now, Admitted)
    {
      ClashStep(short, long, maxKeys, i);
    }
  }

  lemma FirstView(short: Call, long: Call)
    ensures ClashView(short, long, 0) == map[]
  {
  }

  lemma RelatedWindowsAgree(rules: set<Rule>, maxKeys: nat, r1: Rule, r2: Rule)
    requires AlwaysRefines(rules, maxKeys) && maxKeys >= 1 && r1 in rules && r2 in rules && Related(r1.id, r2.id)
    requires 0 < r1.window && 1 <= r2.requests
    ensures r1.window >= r2.window
  {
    hide Related, AlwaysRefines;
    if r1.window < r2.window {
      CollideIffRelated(r1, r2);
      var k1, k2 :| MapKey(r1, k1) == MapKey(r2, k2);
      ClashRefutes(rules, maxKeys, Call(r1, k1, 0), Call(r2, k2, 0));
    }
  }

  lemma ClashRefutes(rules: set<Rule>, maxKeys: nat, short: Call, long: Call)
    requires Clashing(short, long) && maxKeys >= 1 && short.rule in rules && long.rule in rules
    ensures !AlwaysRefines(rules, maxKeys)
  {
    hide IsRun, CounterAdmits, Clocked;
    var calls := ClashCalls(short, long);
    ClashBreaks(short, long, maxKeys);
    assert Uses(calls, rules) && !Refines(calls, AllYes(|calls|));
  }

  /** For rules with positive quotas and windows, which configuration validation demands, every run with a
      non-decreasing clock refines the counter if and only if rules with related IDs have equal windows. */
  lemma RefinesIffCompatible(rules: set<Rule>, maxKeys: nat)
    requires maxKeys >= 1 && forall r | r in rules :: r.window > 0 && r.requests > 0
    ensures AlwaysRefines(rules, maxKeys) <==> Compatible(rules)
  {
    if Compatible(rules) { CompatibleRefines(rules, maxKeys); }
    hide Related;
    if AlwaysRefines(rules, maxKeys) {
      hide AlwaysRefines;
      forall r1, r2 | r1 in rules && r2 in rules && Related(r1.id, r2.id)
        ensures r1.window == r2.window
      {
        RelatedIsSymmetric(r1.id, r2.id);
        RelatedWindowsAgree(rules, maxKeys, r1, r2);
        RelatedWindowsAgree(rules, maxKeys, r2, r1);
      }
    }
  }

  lemma RelatedIsSymmetric(id1: string, id2: string)
    ensures Related(id1, id2) <==> Related(id2, id1)
  {
  }

  // ----- two readings of it

  predicate Plain(s: string) { forall i | 0 <= i < |s| :: s[i] != '|' }

  /** Separator-free IDs that each name one window are safe. */
  lemma PlainIDsRefine(rules: set<Rule>, maxKeys: nat)
    requires forall r | r in rules :: Plain(r.id)
    requires forall r1, r2 | r1 in rules && r2 in rules && r1.id == r2.id :: r1.window == r2.window
    ensures AlwaysRefines(rules, maxKeys)
  {
    hide Plain, Related;
    forall r1, r2 | r1 in rules && r2 in rules && Related(r1.id, r2.id)
      ensures r1.window == r2.window
    {
      PlainAndRelated(r1.id, r2.id);
    }
    CompatibleRefines(rules, maxKeys);
  }

  lemma PlainAndRelated(id1: string, id2: string)
    requires Plain(id1) && Plain(id2)
    ensures Related(id1, id2) <==> id1 == id2
  {
    hide Plain;
    if id1 + "|" <= id2 { BarInside(id1, id2); }
    if id2 + "|" <= id1 { BarInside(id2, id1); }
  }

  lemma BarInside(id1: string, id2: string)
    requires id1 + "|" <= id2
    ensures !Plain(id2)
  {
    assert id2[|id1|] == '|';
  }

  /** With separator-free rule IDs the map key names the rule and the caller. */
  lemma MapKeyInjective(r1: Rule, k1: string, r2: Rule, k2: string)
    requires Plain(r1.id) && Plain(r2.id) && MapKey(r1, k1) == MapKey(r2, k2)
    ensures r1.id == r2.id
    ensures (if k1 == "" then "anonymous" else k1) == (if k2 == "" then "anonymous" else k2)
  {
    if |r1.id| <= |r2.id| { SameKeyIsRelated(r1, k1, r2, k2); } else { SameKeyIsRelated(r2, k2, r1, k1); }
    PlainAndRelated(r1.id, r2.id);
    PlainAndRelated(r2.id, r1.id);
    var s, n := MapKey(r1, k1), |r1.id| + 1;
    assert s[n..] == if k1 == "" then "anonymous" else k1;
    assert s[n..] == if k2 == "" then "anonymous" else k2;
  }

  /** Rule "a" with a window of 10 and rule "a|b" with one of 100 do break the counter. */
  lemma SeparatorBreaks(maxKeys: nat)
    requires maxKeys >= 1
    ensures !AlwaysRefines({Rule("a", 1, 10), Rule("a|b", 1, 100)}, maxKeys)
  {
    var r1, r2 := Rule("a", 1, 10), Rule("a|b", 1, 100);
    assert Related(r1.id, r2.id);
    hide AlwaysRefines, Related;
    RefinesIffCompatible({r1, r2}, maxKeys);
  }
}
