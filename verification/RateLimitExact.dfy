/** The fixed-window counter told by what it admits, and which rules a request is charged to. */
module RateLimitExact {
  import opened Selection
  import opened RateLimit

  /** A call is admitted exactly when the key has no window, its window is over, or fewer than the quota were
      counted in it; the first two open a window at this moment with one count. */
  lemma CountIs(c: Counter, rule: Rule, mk: string, now: int)
    ensures var (c', ok) := Count(c, rule, mk, now); var opens := mk !in c || c[mk].start + rule.window <= now;
      && (ok <==> opens || c[mk].count < rule.requests)
      && (opens ==> c' == c[mk := Window(now, 1)])
      && (!opens && ok ==> c' == c[mk := Window(c[mk].start, c[mk].count + 1)]) && (!ok ==> c' == c)
  {
  }

  /** A run of calls under one key and rule. */
  ghost function Counted(c: Counter, rule: Rule, mk: string, times: seq<int>): (Counter, seq<bool>)
  {
    if times == [] then (c, [])
    else
      var (c1, done) := Counted(c, rule, mk, times[..|times| - 1]);
      var (c2, ok) := Count(c1, rule, mk, times[|times| - 1]);
      (c2, done + [ok])
  }

  /** Of the calls in one window the first as many as the quota are admitted, and no more; the quota is one
      at least. */
  lemma {:induction false} QuotaIsExact(c: Counter, rule: Rule, mk: string, times: seq<int>, i: nat)
    requires i < |times| && (mk !in c || c[mk].start + rule.window <= times[0])
    requires forall k | 0 <= k < |times| :: times[0] <= times[k] < times[0] + rule.window
    ensures var quota := if rule.requests < 1 then 1 else rule.requests; var (c', done) := Counted(c, rule, mk, times);
      && |done| == |times| && (done[i] <==> i < quota)
      && mk in c' && c'[mk] == Window(times[0], if |times| < quota then |times| else quota)
    decreases |times|
  {
    var front := times[..|times| - 1];
    if |front| > 0 {
      QuotaIsExact(c, rule, mk, front, if i < |front| then i else 0);
    }
  }

  /** With a window over, the next call is admitted again. */
  lemma WindowsEnd(c: Counter, rule: Rule, mk: string, now: int)
    requires mk in c && c[mk].start + rule.window <= now
    ensures Count(c, rule, mk, now).1
  {
  }

  // ----- eviction

  /** The keys whose windows are due. */
  ghost function Due(v: View, now: int): set<string> { set k | k in v && v[k].expiresAt <= now }

  /** A call drops all due windows if there are at most eight, else eight of them. */
  lemma EvictionIsExact(v: View, v': View, now: int)
    requires Evicts(v, v', now)
    ensures var gone := v.Keys - v'.Keys;
      && gone <= Due(v, now) && v'.Keys <= v.Keys
      && (|Due(v, now)| <= 8 ==> gone == Due(v, now)) && (|Due(v, now)| > 8 ==> |gone| == 8)
  {
    hide EarliestFirst;
    var gone := v.Keys - v'.Keys;
    var due := Due(v, now);
    if |gone| < EVICTION_BUDGET {
      assert gone == due;
    } else {
      Subset(gone, due);
    }
  }

  lemma Subset<T>(a: set<T>, b: set<T>)
    requires a <= b
    ensures |a| <= |b| && (|a| == |b| ==> a == b)
  {
    assert b == a + (b - a);
    if |a| == |b| { assert |b - a| == 0; }
  }

  // ----- charging

  datatype Row = Row(rule: Rule, matches: seq<bool>, time: int)

  ghost function Zip(rules: seq<Rule>, matches: seq<seq<bool>>, times: seq<int>): seq<Row>
    requires |rules| == |matches| == |times|
  {
    seq(|rules|, i requires 0 <= i < |rules| => Row(rules[i], matches[i], times[i]))
  }

  /** Some usable identity is matched. */
  ghost function Matched(identities: seq<Identity>): Row -> bool {
    (row: Row) => exists i :: 0 <= i < |row.matches| && i < |identities| && identities[i] == Usable && row.matches[i]
  }

  ghost function Charge(key: string): Row -> Call { (row: Row) => Call(row.rule, key, row.time) }

  /** The rules charged are those some usable identity matches, each once, in order. */
  lemma {:induction false} ChargedPicks(rules: seq<Rule>, identities: seq<Identity>, matches: seq<seq<bool>>, key: string, times: seq<int>)
    returns (p: seq<nat>)
    requires |rules| == |matches| == |times| && forall r | 0 <= r < |matches| :: |matches[r]| == |identities|
    ensures Picks(Zip(rules, matches, times), Matched(identities), Charge(key), Charged(rules, identities, matches, key, times), p)
  {
    hide Picks;
    p := [];
    if rules == [] {
      assert Zip(rules, matches, times) == [];
      PicksNothing(Matched(identities), Charge(key));
    } else {
      var n := |rules| - 1;
      var row := Row(rules[n], matches[n], times[n]);
      p := ChargedPicks(rules[..n], identities, matches[..n], key, times[..n]);
      PicksNext(Zip(rules[..n], matches[..n], times[..n]), Matched(identities), Charge(key),
                Charged(rules[..n], identities, matches[..n], key, times[..n]), p, row);
      assert Zip(rules, matches, times) == Zip(rules[..n], matches[..n], times[..n]) + [row];
      assert Matched(identities)(row) <==> MatchedBy(identities, matches[n]);
      if MatchedBy(identities, matches[n]) {
        p := p + [n];
        assert Charged(rules, identities, matches, key, times)
            == Charged(rules[..n], identities, matches[..n], key, times[..n]) + [Charge(key)(row)];
      } else {
        assert Charged(rules, identities, matches, key, times) == Charged(rules[..n], identities, matches[..n], key, times[..n]);
      }
    }
  }

  /** A malformed identity is charged nothing. */
  lemma MalformedIsFree(rules: seq<Rule>, identities: seq<Identity>, matches: seq<seq<bool>>, key: string, times: seq<int>)
    requires |rules| == |matches| == |times| && forall r | 0 <= r < |matches| :: |matches[r]| == |identities|
    ensures ChargedFor(rules, identities, matches, key, times) ==
      if Malformed in identities then [] else Charged(rules, identities, matches, key, times)
  {
  }
}
