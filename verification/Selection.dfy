/** Picking out elements of a sequence: which, in which order, and that none is missed. */
module Selection {

  /** t is f of the elements of s that are kept, at the increasing positions p, and no other is kept. */
  ghost predicate Picks<T(!new), U(!new)>(s: seq<T>, keep: T -> bool, f: T -> U, t: seq<U>, p: seq<nat>) {
    && |p| == |t| && (forall i, j | 0 <= i < j < |p| :: p[i] < p[j])
    && (forall i | 0 <= i < |p| :: p[i] < |s| && keep(s[p[i]]) && t[i] == f(s[p[i]]))
    && (forall k: nat | k < |s| && keep(s[k]) :: k in p)
  }

  lemma PicksNothing<T(!new), U(!new)>(keep: T -> bool, f: T -> U)
    ensures Picks([], keep, f, [], [])
  {
  }

  /** One more element, kept or not. */
  lemma PicksNext<T(!new), U(!new)>(s: seq<T>, keep: T -> bool, f: T -> U, t: seq<U>, p: seq<nat>, x: T)
    requires Picks(s, keep, f, t, p)
    ensures keep(x) ==> Picks(s + [x], keep, f, t + [f(x)], p + [|s|])
    ensures !keep(x) ==> Picks(s + [x], keep, f, t, p)
  {
    if keep(x) {
      var p' := p + [|s|];
      assert p'[|p|] == |s|;
      forall k: nat | k < |s + [x]| && keep((s + [x])[k])
        ensures k in p'
      {
        if k < |s| { assert k in p; }
      }
    }
  }

  lemma FrontAndLast<T>(s: seq<T>)
    requires s != []
    ensures s[..|s| - 1] + [s[|s| - 1]] == s
  {
  }
}
