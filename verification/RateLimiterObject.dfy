/** The limiter as it is built: a map of bucket objects and an indexed binary heap of
    the same objects ordered by expiry, kept in exact agreement. */
module RateLimiterObject {
  import opened RateLimit
  import opened ExpiryHeap

  class Bucket {
    const key: string
    var start: int
    var expiresAt: int
    var count: int
    var heapIndex: int

    constructor (key: string, start: int, expiresAt: int, count: int)
      ensures this.key == key && this.start == start && this.expiresAt == expiresAt && this.count == count
    {
      this.key, this.start, this.expiresAt, this.count, this.heapIndex := key, start, expiresAt, count, 0;
    }
  }

  type Heap = seq<Bucket>

  /** Each bucket knows its own position; so no bucket occurs twice. */
  ghost predicate Indexed(h: Heap)
    reads h
  {
    forall i | 0 <= i < |h| :: h[i].heapIndex == i
  }

  ghost function Exps(h: Heap): (e: seq<int>)
    reads h
    ensures |e| == |h| && forall i | 0 <= i < |h| :: e[i] == h[i].expiresAt
  {
    seq(|h|, i requires 0 <= i < |h| reads h => h[i].expiresAt)
  }

  ghost predicate Within(h: Heap, all: Heap) { forall b | b in h :: b in all }

  lemma SwapIsWithin(h: Heap, i: nat, j: nat)
    requires i < |h| && j < |h|
    ensures Within(h[i := h[j]][j := h[i]], h) && Within(h, h[i := h[j]][j := h[i]])
  {
    var h' := h[i := h[j]][j := h[i]];
    forall b | b in h
      ensures b in h'
    {
      var k :| 0 <= k < |h| && h[k] == b;
      if k == i { assert h'[j] == b; } else if k == j { assert h'[i] == b; } else { assert h'[k] == b; }
    }
  }

  class RateLimiter {
    var hits: map<string, Bucket>
    var expirations: Heap
    const maxKeys: nat

    ghost predicate Agreement()
      reads this, expirations
    {
      && (forall b | b in expirations :: b.key in hits && hits[b.key] == b)
      && (forall k | k in hits :: hits[k] in expirations && hits[k].key == k)
    }

    /** Map and heap hold the same buckets, at the positions they record, in heap order. */
    ghost predicate Valid()
      reads this, expirations
    {
      Indexed(expirations) && Agreement() && IsHeap(Exps(expirations), |expirations|) && |hits| <= maxKeys
    }

    ghost function Tracked(): View
      reads this, hits.Values
    {
      map k | k in hits :: Slot(hits[k].start, hits[k].expiresAt, hits[k].count)
    }

    constructor (maxKeys: nat)
      ensures Valid() && Tracked() == map[] && this.maxKeys == maxKeys
    {
      this.maxKeys, hits, expirations := maxKeys, map[], [];
    }

    // ----- the heap

    method Swap(i: nat, j: nat)
      requires i < |expirations| && j < |expirations| && Indexed(expirations)
      modifies this`expirations, (set b | b in expirations)`heapIndex
      ensures Indexed(expirations) && expirations == old(expirations[i := expirations[j]][j := expirations[i]])
      ensures Within(expirations, old(expirations)) && Within(old(expirations), expirations)
      ensures Exps(expirations) == Swapped(old(Exps(expirations)), i, j)
    {
      SwapIsWithin(expirations, i, j);
      var x, y := expirations[i], expirations[j];
      expirations := expirations[i := y][j := x];
      y.heapIndex := i;
      x.heapIndex := j;
    }

    /** container/heap up: everything is in order but perhaps bucket j0 and its parent. */
    method Up(j0: nat)
      requires j0 < |expirations| && Indexed(expirations)
      requires HeapBut(Exps(expirations), |expirations|, j0) && Bridged(Exps(expirations), |expirations|, j0)
      modifies this`expirations, (set b | b in expirations)`heapIndex
      ensures Indexed(expirations) && IsHeap(Exps(expirations), |expirations|)
      ensures |expirations| == old(|expirations|)
      ensures Within(expirations, old(expirations)) && Within(old(expirations), expirations)
    {
      hide Exps, HeapBut, Bridged, IsHeap;
      var j: nat := j0;
      while true
        invariant j < |expirations| == old(|expirations|) && Indexed(expirations)
        invariant Within(expirations, old(expirations)) && Within(old(expirations), expirations)
        invariant HeapBut(Exps(expirations), |expirations|, j) && Bridged(Exps(expirations), |expirations|, j)
        decreases j
      {
        var i: nat := Parent(j);
        if i == j || expirations[j].expiresAt >= expirations[i].expiresAt {
          SettledUp(Exps(expirations), |expirations|, j);
          break;
        }
        UpStep(Exps(expirations), |expirations|, j);
        Swap(i, j);
        j := i;
      }
    }

    /** container/heap down on the first n buckets, from a bucket that may be out of order
        with its children and its parent. */
    method Down(i0: nat, n: nat) returns (moved: bool)
      requires i0 <= n <= |expirations| && Indexed(expirations)
      requires DownPre(Exps(expirations), n, i0)
      modifies this`expirations, (set b | b in expirations)`heapIndex
      ensures Indexed(expirations) && |expirations| == old(|expirations|)
      ensures Within(expirations, old(expirations)) && Within(old(expirations), expirations)
      ensures expirations[n..] == old(expirations)[n..]
      ensures if moved then IsHeap(Exps(expirations), n)
              else expirations == old(expirations) && HeapBut(Exps(expirations), n, i0)
    {
      hide Exps, HeapBut, Bridged, IsHeap, HeapAbove, DownPre, DownInv;
      var i: nat := i0;
      DownStarts(Exps(expirations), n, i0);
      while true
        invariant i0 <= i <= n <= |expirations| == old(|expirations|) && Indexed(expirations)
        invariant Within(expirations, old(expirations)) && Within(old(expirations), expirations)
        invariant expirations[n..] == old(expirations)[n..]
        invariant i == i0 ==> expirations == old(expirations)
        invariant DownInv(Exps(expirations), n, i, i0)
        decreases n - i
      {
        var j := 2 * i + 1;
        if j >= n {
          SettledDown(Exps(expirations), n, i, i0);
          break;
        }
        if j + 1 < n && expirations[j + 1].expiresAt < expirations[j].expiresAt {
          j := j + 1;
        }
        if expirations[j].expiresAt >= expirations[i].expiresAt {
          SettledDown(Exps(expirations), n, i, i0);
          break;
        }
        DownSwap(Exps(expirations), n, i, j, i0);
        Swap(i, j);
        i := j;
      }
      moved := i > i0;
    }

    /** heap.Push of a bucket nobody else holds. */
    method Push(b: Bucket)
      requires Indexed(expirations) && IsHeap(Exps(expirations), |expirations|) && b !in expirations
      modifies this`expirations, b`heapIndex, (set x | x in expirations)`heapIndex
      ensures Indexed(expirations) && IsHeap(Exps(expirations), |expirations|)
      ensures |expirations| == old(|expirations|) + 1
      ensures Within(expirations, old(expirations) + [b]) && Within(old(expirations) + [b], expirations)
    {
      ghost var e := Exps(expirations);
      b.heapIndex := |expirations|;
      expirations := expirations + [b];
      assert Exps(expirations) == e + [b.expiresAt];
      PushedLast(e, b.expiresAt);
      Up(|expirations| - 1);
    }

    /** The slice's own Pop: the last bucket leaves. */
    method TakeLast() returns (b: Bucket)
      requires |expirations| > 0 && Indexed(expirations)
      requires IsHeap(Exps(expirations), |expirations| - 1)
      modifies this`expirations, (set x | x in expirations)`heapIndex
      ensures Indexed(expirations) && IsHeap(Exps(expirations), |expirations|)
      ensures old(expirations) == expirations + [b] && b !in expirations
    {
      var n := |expirations| - 1;
      ghost var full, e := expirations, Exps(expirations);
      b := expirations[n];
      expirations := expirations[..n];
      assert full == expirations + [b];
      assert Exps(expirations) == e[..n];
      ShorterHeap(e, Exps(expirations), n);
      assert forall i | 0 <= i < n :: expirations[i].heapIndex == i;
      b.heapIndex := -1;
    }

    /** heap.Pop: the earliest bucket leaves. */
    method Pop() returns (b: Bucket)
      requires Indexed(expirations) && IsHeap(Exps(expirations), |expirations|) && |expirations| > 0
      modifies this`expirations, (set x | x in expirations)`heapIndex
      ensures Indexed(expirations) && IsHeap(Exps(expirations), |expirations|)
      ensures b == old(expirations)[0] && |expirations| == old(|expirations|) - 1 && b !in expirations
      ensures Within(expirations, old(expirations)) && Within(old(expirations), expirations + [b])
    {
      hide Exps, IsHeap, HeapBut, DownPre;
      var n := |expirations| - 1;
      SwappedRoot(Exps(expirations), n);
      Swap(0, n);
      assert expirations[n..][0] == old(expirations)[0];
      var moved := Down(0, n);
      assert expirations[n] == expirations[n..][0];
      RootSettled(Exps(expirations), n);
      b := TakeLast();
    }

    /** heap.Fix after the bucket at i changed its expiry. */
    method Fix(i: nat)
      requires i < |expirations| && Indexed(expirations)
      requires DownPre(Exps(expirations), |expirations|, i)
      modifies this`expirations, (set x | x in expirations)`heapIndex
      ensures Indexed(expirations) && IsHeap(Exps(expirations), |expirations|)
      ensures |expirations| == old(|expirations|)
      ensures Within(expirations, old(expirations)) && Within(old(expirations), expirations)
    {
      hide Exps, IsHeap, HeapBut;
      var moved := Down(i, |expirations|);
      if !moved {
        Up(i);
      }
    }

    // ----- the limiter

    /** Drops the bucket that has just left the heap from the map. */
    method Forget(b: Bucket)
      requires Indexed(expirations) && IsHeap(Exps(expirations), |expirations|)
      requires b !in expirations && b.key in hits && hits[b.key] == b
      requires forall x | x in expirations :: x.key in hits && hits[x.key] == x
      requires forall k | k in hits :: hits[k].key == k && (hits[k] in expirations || hits[k] == b)
      requires |hits| <= maxKeys
      modifies this`hits
      ensures Valid() && hits == old(hits) - {b.key}
    {
      hits := hits - {b.key};
    }

    /** The earliest window, which the heap's root holds, is no longer tracked. */
    method EvictRoot()
      requires Valid() && |expirations| > 0
      modifies this, (set b | b in expirations)`heapIndex
      ensures Valid() && Within(expirations, old(expirations)) && |expirations| < old(|expirations|)
      ensures var v, k := old(Tracked()), old(expirations[0].key);
        k in v && v[k].expiresAt == old(expirations[0].expiresAt) && Tracked() == v - {k}
    {
      hide Exps, IsHeap;
      var b := expirations[0];
      var popped := Pop();
      Forget(b);
    }

    lemma RootIsEarliest()
      requires Valid() && |expirations| > 0
      ensures forall k | k in Tracked() :: expirations[0].expiresAt <= Tracked()[k].expiresAt
      ensures expirations[0].key in Tracked()
      ensures Tracked()[expirations[0].key].expiresAt == expirations[0].expiresAt
    {
      hide IsHeap, Indexed;
      RootComesFirst(expirations);
    }

    /** Up to eight due buckets leave, earliest first. */
    method Expire(now: int)
      requires Valid()
      modifies this, (set b | b in expirations)`heapIndex
      ensures Valid() && Evicts(old(Tracked()), Tracked(), now)
      ensures Within(expirations, old(expirations))
    {
      hide Valid, Tracked, EarliestFirst, Evicts;
      ghost var v, gone := Tracked(), {};
      NoneGone(v);
      var n := 0;
      while n < EVICTION_BUDGET && |expirations| > 0
        invariant 0 <= n <= EVICTION_BUDGET && Valid() && Within(expirations, old(expirations))
        invariant |gone| == n && gone <= v.Keys && Tracked() == v - gone
        invariant forall k | k in gone :: v[k].expiresAt <= now
        invariant EarliestFirst(v, v - gone)
      {
        RootIsEarliest();
        if now < expirations[0].expiresAt {
          break;
        }
        EarliestGrows(v, gone, expirations[0].key, Tracked());
        gone := gone + {expirations[0].key};
        EvictRoot();
        n := n + 1;
      }
      if n < EVICTION_BUDGET && |expirations| == 0 { NothingTracked(); }
      EvictedBy(v, gone, now);
    }

    lemma NothingTracked()
      requires Valid() && |expirations| == 0
      ensures Tracked() == map[]
    {
    }

    /** Enters a bucket that has just joined the heap into the map. */
    method Remember(b: Bucket)
      requires Indexed(expirations) && IsHeap(Exps(expirations), |expirations|)
      requires b in expirations && b.key !in hits && |hits| < maxKeys
      requires forall x | x in expirations :: x == b || (x.key in hits && hits[x.key] == x)
      requires forall k | k in hits :: hits[k].key == k && hits[k] in expirations
      modifies this`hits
      ensures Valid() && hits == old(hits)[b.key := b]
    {
      hits := hits[b.key := b];
    }

    /** A new bucket joins heap and map. */
    method Join(b: Bucket)
      requires Valid() && b.key !in hits && b !in expirations && |hits| < maxKeys
      modifies this, b`heapIndex, (set x | x in expirations)`heapIndex
      ensures Valid() && hits == old(hits)[b.key := b]
      ensures Within(expirations, old(expirations) + [b])
    {
      hide Exps, IsHeap, Indexed;
      ghost var was := expirations;
      Push(b);
      assert b in was + [b];
      assert forall x | x in was :: x in was + [b];
      Remember(b);
    }

    /** A window for a key the map does not hold. */
    method Open(mapKey: string, now: int, window: int)
      requires Valid() && mapKey !in hits && |hits| < maxKeys
      modifies this, (set b | b in expirations)`heapIndex
      ensures Valid() && Tracked() == old(Tracked())[mapKey := Slot(now, now + window, 1)]
      ensures forall x | x in expirations :: x in old(expirations) || fresh(x)
    {
      var b := new Bucket(mapKey, now, now + window, 1);
      hide Valid;
      Join(b);
    }

    /** An expired window that bounded cleanup left behind starts again in place. */
    method Renew(b: Bucket, now: int, window: int)
      requires Valid() && b in expirations
      modifies this, set x | x in expirations
      ensures Valid() && Tracked() == old(Tracked())[b.key := Slot(now, now + window, 1)]
      ensures Within(expirations, old(expirations))
    {
      hide IsHeap, Exps, DownPre, Indexed;
      Restamp(b, now, window);
      Fix(b.heapIndex);
    }

    /** The bucket's fields change where it stands. */
    method Restamp(b: Bucket, now: int, window: int)
      requires Valid() && b in expirations
      modifies b`start, b`expiresAt, b`count
      ensures Indexed(expirations) && Agreement() && 0 <= b.heapIndex < |expirations|
      ensures DownPre(Exps(expirations), |expirations|, b.heapIndex)
      ensures Tracked() == old(Tracked())[b.key := Slot(now, now + window, 1)]
    {
      hide IsHeap, Leq, DownPre;
      ghost var e, i := Exps(expirations), b.heapIndex;
      assert expirations[i] == b;
      ChangedOne(e, i, now + window);
      b.start, b.expiresAt, b.count := now, now + window, 1;
      assert Exps(expirations) == e[i := now + window];
      Retracked(b);
      hide Tracked;
    }

    /** When one bucket changed, one tracked window did. */
    twostate lemma Retracked(b: Bucket)
      requires old(Agreement()) && b in expirations && hits == old(hits) && expirations == old(expirations)
      requires forall x | x in expirations && x != b ::
        x.start == old(x.start) && x.expiresAt == old(x.expiresAt) && x.count == old(x.count)
      ensures Tracked() == old(Tracked())[b.key := Slot(b.start, b.expiresAt, b.count)]
    {
    }

    /** The decision once due windows are gone. */
    method Settle(rule: Rule, mapKey: string, now: int) returns (d: Decision)
      requires Valid()
      modifies this, set b | b in expirations
      ensures Valid() && (Tracked(), d) == Decide(old(Tracked()), maxKeys, rule, mapKey, now)
      ensures forall x | x in expirations :: x in old(expirations) || fresh(x)
    {
      hide Indexed, IsHeap, Exps;
      assert Tracked().Keys == hits.Keys;
      if mapKey !in hits {
        if |hits| >= maxKeys {
          return CapacityRefused;
        }
        Open(mapKey, now, rule.window);
        return Admitted;
      }
      var b := hits[mapKey];
      if now - b.start >= rule.window {
        Renew(b, now, rule.window);
        return Admitted;
      }
      if b.count >= rule.requests {
        return QuotaRefused;
      }
      Bump(b);
      d := Admitted;
    }

    method Bump(b: Bucket)
      requires Valid() && b in expirations
      modifies b`count
      ensures Valid() && Tracked() == old(Tracked())[b.key := old(Tracked()[b.key]).(count := old(b.count) + 1)]
    {
      hide IsHeap;
      b.count := b.count + 1;
      assert Exps(expirations) == old(Exps(expirations));
    }

    method Allow(rule: Rule, key: string, now: int) returns (d: Decision)
      requires Valid()
      modifies this, set b | b in expirations
      ensures Valid() && AllowStep(old(Tracked()), Tracked(), maxKeys, rule, key, now, d)
      ensures forall x | x in expirations :: x in old(expirations) || fresh(x)
    {
      hide Valid, Tracked, Evicts, Decide;
      Expire(now);
      d := Settle(rule, MapKey(rule, key), now);
    }

    /** Refuses a request with a malformed identity outright; else charges every rule that some
        identity matches, once each, and admits the request only if all of them do. */
    method AllowRequests(rules: seq<Rule>, identities: seq<Identity>, matches: seq<seq<bool>>, key: string, times: seq<int>)
        returns (ok: bool, decisions: seq<Decision>, ghost views: seq<View>)
      requires Valid() && |rules| == |matches| == |times| && forall r | 0 <= r < |matches| :: |matches[r]| == |identities|
      modifies this, set b | b in expirations
      ensures Valid() && |views| == |decisions| + 1
      ensures |decisions| == |ChargedFor(rules, identities, matches, key, times)|
      ensures views[0] == old(Tracked()) && views[|decisions|] == Tracked()
      ensures forall i | 0 <= i < |decisions| :: var c := ChargedFor(rules, identities, matches, key, times)[i];
        AllowStep(views[i], views[i + 1], maxKeys, c.rule, c.key, c.now, decisions[i])
      ensures ok <==> Malformed !in identities && AllAdmitted(decisions)
    {
      hide Valid, Tracked, AllowStep, MatchedBy;
      ok, decisions, views := true, [], [Tracked()];
      var bad := AnyMalformed(identities);
      if bad { return false, [], views; }
      ghost var charged: seq<Call> := [];
      for r := 0 to |rules|
        invariant Valid() && charged == Charged(rules[..r], identities, matches[..r], key, times[..r])
        invariant |decisions| == |charged| && |views| == |decisions| + 1
        invariant views[0] == old(Tracked()) && views[|decisions|] == Tracked()
        invariant forall x | x in expirations :: x in old(expirations) || fresh(x)
        invariant forall i | 0 <= i < |decisions| ::
          AllowStep(views[i], views[i + 1], maxKeys, charged[i].rule, charged[i].key, charged[i].now, decisions[i])
        invariant ok <==> AllAdmitted(decisions)
      {
        assert rules[..r + 1][..r] == rules[..r] && matches[..r + 1][..r] == matches[..r] && times[..r + 1][..r] == times[..r];
        var matched := AnyMatch(identities, matches[r]);
        if matched {
          var d := Allow(rules[r], key, times[r]);
          if d != Admitted {
            ok := false;
          }
          AllAdmittedAppend(decisions, d);
          decisions, views := decisions + [d], views + [Tracked()];
          charged := charged + [Call(rules[r], key, times[r])];
        }
      }
      assert rules[..|rules|] == rules && matches[..|rules|] == matches && times[..|rules|] == times;
    }
  }

  /** The loop that reads the paths of all identities first. */
  method AnyMalformed(identities: seq<Identity>) returns (bad: bool)
    ensures bad == (Malformed in identities)
  {
    for i := 0 to |identities|
      invariant Malformed !in identities[..i]
    {
      if identities[i] == Malformed { return true; }
    }
    return false;
  }

  /** The loop over identities for one rule, which stops at the first match. */
  method AnyMatch(identities: seq<Identity>, row: seq<bool>) returns (any: bool)
    requires |row| == |identities|
    ensures any == MatchedBy(identities, row)
  {
    for i := 0 to |row|
      invariant forall k | 0 <= k < i :: !(identities[k] == Usable && row[k])
    {
      if identities[i] == Usable && row[i] { return true; }
    }
    return false;
  }

  lemma NoneGone(v: View)
    ensures v - {} == v && EarliestFirst(v, v - {})
  {
  }

  lemma EvictedBy(v: View, gone: set<string>, now: int)
    requires gone <= v.Keys && |gone| <= EVICTION_BUDGET && EarliestFirst(v, v - gone)
    requires forall k | k in gone :: v[k].expiresAt <= now
    requires |gone| < EVICTION_BUDGET ==> forall k | k in v - gone :: now < (v - gone)[k].expiresAt
    ensures Evicts(v, v - gone, now)
  {
    hide EarliestFirst;
    assert v.Keys - (v - gone).Keys == gone;
  }

  lemma EarliestGrows(v: View, gone: set<string>, k: string, kept: View)
    requires EarliestFirst(v, v - gone) && kept == v - gone && k in kept
    requires forall x | x in kept :: kept[k].expiresAt <= kept[x].expiresAt
    ensures EarliestFirst(v, v - (gone + {k}))
  {
    assert forall x | x in v - (gone + {k}) :: x in v - gone;
  }

  lemma SettledUp(e: seq<int>, n: nat, j: nat)
    requires j < n <= |e| && HeapBut(e, n, j) && (j == 0 || Leq(e, j))
    ensures IsHeap(e, n)
  {
  }

  /** Only the bucket at i may be out of order, with its parent and its children. */
  ghost predicate DownPre(e: seq<int>, n: nat, i: nat)
    requires n <= |e|
  {
    (forall k: nat | k < n && k != i && (k == 0 || Parent(k) != i) :: Leq(e, k)) && Bridged(e, n, i)
  }

  ghost predicate DownInv(e: seq<int>, n: nat, i: nat, i0: nat)
    requires n <= |e|
  {
    Bridged(e, n, i) && if i == i0 then DownPre(e, n, i0) else HeapAbove(e, n, i)
  }

  lemma DownStarts(e: seq<int>, n: nat, i0: nat)
    requires n <= |e| && DownPre(e, n, i0)
    ensures DownInv(e, n, i0, i0)
  {
  }

  lemma SettledDown(e: seq<int>, n: nat, i: nat, i0: nat)
    requires i0 <= i <= n <= |e| && DownInv(e, n, i, i0)
    requires 2 * i + 1 < n ==> e[i] <= e[2 * i + 1]
    requires 2 * i + 2 < n ==> e[i] <= e[2 * i + 2]
    ensures if i > i0 then IsHeap(e, n) else HeapBut(e, n, i0)
  {
    forall k: nat | k < n && (i > i0 || k != i0)
      ensures Leq(e, k)
    {
      if k > 0 && Parent(k) == i { ChildrenOf(i, k); }
    }
  }

  lemma TopIsNoChild(top: nat, i: nat)
    requires top < i
    ensures Parent(top) != i
  {
  }

  lemma DownSwap(e: seq<int>, n: nat, i: nat, j: nat, i0: nat)
    requires i0 <= i < n <= |e| && DownInv(e, n, i, i0)
    requires (j == 2 * i + 1 || j == 2 * i + 2) && j < n && e[j] < e[i]
    requires e[j] <= e[2 * i + 1] && (2 * i + 2 < n ==> e[j] <= e[2 * i + 2])
    ensures DownInv(Swapped(e, i, j), n, j, i0)
  {
    assert Parent(j) == i;
    hide Leq, Bridged, Parent;
    forall k: nat | 0 < k < n && Parent(k) == i
      ensures e[j] <= e[k]
    {
      ChildrenOf(i, k);
    }
    if i != i0 { TopIsNoChild(i0, i); }
    DownStep(e, n, i, j, i0);
  }

  lemma PushedLast(e: seq<int>, x: int)
    requires IsHeap(e, |e|)
    ensures HeapBut(e + [x], |e| + 1, |e|) && Bridged(e + [x], |e| + 1, |e|)
  {
    forall k: nat | k < |e|
      ensures Leq(e + [x], k)
    {
      assert Leq(e, k);
    }
  }

  lemma SwappedRoot(e: seq<int>, n: nat)
    requires |e| == n + 1 && IsHeap(e, |e|)
    ensures DownPre(Swapped(e, 0, n), n, 0)
  {
    var e' := Swapped(e, 0, n);
    forall k: nat | k < n && k != 0 && Parent(k) != 0
      ensures Leq(e', k)
    {
      assert Leq(e, k);
    }
  }

  lemma RootSettled(e: seq<int>, n: nat)
    requires n <= |e| && (IsHeap(e, n) || HeapBut(e, n, 0))
    ensures IsHeap(e, n)
  {
  }

  lemma ShorterHeap(e: seq<int>, e': seq<int>, n: nat)
    requires n <= |e| && IsHeap(e, n) && e' == e[..n]
    ensures IsHeap(e', n)
  {
    forall k: nat | k < n
      ensures Leq(e', k)
    {
      assert Leq(e, k);
    }
  }

  /** The root of the heap expires no later than any bucket in it. */
  lemma RootComesFirst(h: Heap)
    requires |h| > 0 && IsHeap(Exps(h), |h|)
    ensures forall b | b in h :: h[0].expiresAt <= b.expiresAt
  {
    forall b | b in h
      ensures h[0].expiresAt <= b.expiresAt
    {
      var i: nat :| i < |h| && h[i] == b;
      RootIsLeast(Exps(h), |h|, i);
    }
  }

  lemma ChangedOne(e: seq<int>, i: nat, x: int)
    requires i < |e| && IsHeap(e, |e|)
    ensures DownPre(e[i := x], |e|, i)
  {
    var e' := e[i := x];
    forall k: nat | k < |e| && k != i && (k == 0 || Parent(k) != i)
      ensures Leq(e', k)
    {
      assert Leq(e, k);
    }
    forall k: nat | 0 < k < |e| && Parent(k) == i && i > 0
      ensures e'[Parent(i)] <= e'[k]
    {
      assert Leq(e, k) && Leq(e, i);
    }
  }
}
