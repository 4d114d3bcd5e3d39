/** UTF-8 byte strings as Go sees them: well-formed sequences of section 4 of RFC 3629, how long
    encoding/json writes them, how strings.TrimSpace trims them and how they are cut to a limit. */
module Utf8 {

  type Byte = b: int | 0 <= b < 256

  type Text = seq<Byte>

  predicate Continuation(b: Byte) { 0x80 <= b < 0xC0 }

  /** utf8.RuneStart. */
  predicate RuneStart(b: Byte) { !Continuation(b) }

  predicate Second(first: Byte, b: Byte) {
    && Continuation(b) && (first == 0xE0 ==> 0xA0 <= b) && (first == 0xED ==> b <= 0x9F)
    && (first == 0xF0 ==> 0x90 <= b) && (first == 0xF4 ==> b <= 0x8F)
  }

  /** The length of the well-formed sequence s starts with, or 0. */
  function ValidWidth(s: Text): (k: nat)
    ensures k <= |s| && forall i | 1 <= i < k :: Continuation(s[i])
  {
    if s == [] then 0
    else if s[0] < 0x80 then 1
    else if 0xC2 <= s[0] <= 0xDF then if |s| >= 2 && Second(s[0], s[1]) then 2 else 0
    else if 0xE0 <= s[0] <= 0xEF then
      if |s| >= 3 && Second(s[0], s[1]) && Continuation(s[2]) then 3 else 0
    else if 0xF0 <= s[0] <= 0xF4 then
      if |s| >= 4 && Second(s[0], s[1]) && Continuation(s[2]) && Continuation(s[3]) then 4 else 0
    else 0
  }

  /** How far a decoder moves: a malformed byte is one step. */
  function Width(s: Text): (k: nat)
    requires s != []
    ensures 0 < k <= |s|
  {
    if ValidWidth(s) == 0 then 1 else ValidWidth(s)
  }

  predicate WellFormed(s: Text)
    decreases |s|
  {
    s == [] || (ValidWidth(s) > 0 && WellFormed(s[ValidWidth(s)..]))
  }

  // ----- JSON

  /** What encoding/json writes for one byte below 0x80. */
  function AsciiCost(b: Byte): nat {
    if b == 0x22 || b == 0x5C || b == 0x08 || b == 0x0C || b == 0x0A || b == 0x0D || b == 0x09 then 2
    else if b < 0x20 || b == 0x3C || b == 0x3E || b == 0x26 then 6
    else 1
  }

  /** The line and paragraph separators, which are escaped. */
  predicate Separator(s: Text) { |s| >= 3 && s[0] == 0xE2 && s[1] == 0x80 && (s[2] == 0xA8 || s[2] == 0xA9) }

  function RuneCost(s: Text): (c: nat)
    requires s != []
  {
    if ValidWidth(s) == 0 || Separator(s) then 6
    else if s[0] < 0x80 then AsciiCost(s[0])
    else ValidWidth(s)
  }

  /** The length of s inside a JSON string. */
  function Escaped(s: Text): nat
    decreases |s|
  {
    if s == [] then 0 else RuneCost(s) + Escaped(s[Width(s)..])
  }

  // ----- trimming

  /** The length of the white space character that s starts with, or 0. */
  function SpaceWidth(s: Text): (k: nat)
    ensures k <= |s| && k <= ValidWidth(s) && (k > 0 ==> k == ValidWidth(s))
  {
    if |s| >= 1 && (9 <= s[0] <= 13 || s[0] == 0x20) then 1
    else if |s| >= 2 && s[0] == 0xC2 && (s[1] == 0x85 || s[1] == 0xA0) then 2
    else if |s| >= 3 && WideSpace(s[0], s[1], s[2]) then 3
    else 0
  }

  predicate WideSpace(a: Byte, b: Byte, c: Byte) {
    || (a == 0xE1 && b == 0x9A && c == 0x80)
    || (a == 0xE2 && b == 0x80 && (0x80 <= c <= 0x8A || c == 0xA8 || c == 0xA9 || c == 0xAF))
    || (a == 0xE2 && b == 0x81 && c == 0x9F)
    || (a == 0xE3 && b == 0x80 && c == 0x80)
  }

  function TrimLeft(s: Text): (t: Text)
    ensures |t| <= |s|
    decreases |s|
  {
    if SpaceWidth(s) > 0 then TrimLeft(s[SpaceWidth(s)..]) else s
  }

  /** Whether the last k bytes of s are a white space character. */
  predicate EndsInSpace(s: Text, k: nat) { 1 <= k <= |s| && SpaceWidth(s[|s| - k..]) == k }

  /** The length of the white space character that s ends in, or 0. */
  function EndWidth(s: Text): (k: nat)
    ensures k <= |s| && (k > 0 ==> EndsInSpace(s, k))
  {
    if EndsInSpace(s, 1) then 1 else if EndsInSpace(s, 2) then 2 else if EndsInSpace(s, 3) then 3 else 0
  }

  function TrimRight(s: Text): (t: Text)
    ensures t <= s
    decreases |s|
  {
    if EndWidth(s) > 0 then TrimRight(s[..|s| - EndWidth(s)]) else s
  }

  function TrimSpace(s: Text): Text { TrimRight(TrimLeft(s)) }

  // ----- cutting

  /** The last place at or before limit where a character may start. */
  function Back(s: Text, limit: nat): (p: nat)
    requires limit < |s|
    ensures p <= limit && (p == 0 || RuneStart(s[p]))
  {
    if limit > 0 && !RuneStart(s[limit]) then Back(s, limit - 1) else limit
  }

  /** truncateUTF8Bytes. */
  function Truncated(s: Text, limit: int): Text {
    if limit <= 0 then [] else if |s| <= limit then s else TrimSpace(s[..Back(s, limit)])
  }

  method TruncateUTF8Bytes(s: Text, limit: int) returns (t: Text)
    ensures t == Truncated(s, limit)
  {
    if limit <= 0 { return []; }
    if |s| <= limit { return s; }
    var p := limit;
    while p > 0 && !RuneStart(s[p])
      invariant 0 <= p <= limit && Back(s, p) == Back(s, limit)
    {
      p := p - 1;
    }
    return TrimSpace(s[..p]);
  }

  // ----- splitting at a place where a character may start

  ghost predicate Splits(s: Text, p: nat) { p <= |s| && (p == |s| || RuneStart(s[p])) }

  lemma FirstOfPrefix(s: Text, p: nat)
    requires 0 < p && Splits(s, p)
    ensures ValidWidth(s[..p]) == ValidWidth(s) <= p && Width(s[..p]) == Width(s) && RuneCost(s[..p]) == RuneCost(s)
    ensures SpaceWidth(s[..p]) == SpaceWidth(s)
  {
    hide AsciiCost;
  }

  lemma EscapedStep(s: Text)
    ensures Escaped(s) == if s == [] then 0 else RuneCost(s) + Escaped(s[Width(s)..])
  {
    hide RuneCost, Width;
  }

  lemma {:induction false} EscapedSplits(s: Text, p: nat)
    requires Splits(s, p)
    ensures Escaped(s) == Escaped(s[..p]) + Escaped(s[p..])
    decreases |s|
  {
    hide Escaped, Width, RuneCost, ValidWidth, SpaceWidth;
    EscapedStep(s);
    EscapedStep(s[..p]);
    if p > 0 {
      FirstOfPrefix(s, p);
      var w := Width(s);
      EscapedSplits(s[w..], p - w);
      assert s[..p][w..] == s[w..][..p - w] && s[w..][p - w..] == s[p..];
    } else {
      assert s[p..] == s;
    }
  }

  lemma {:induction false} WellFormedSplits(s: Text, p: nat)
    requires Splits(s, p) && WellFormed(s)
    ensures WellFormed(s[..p]) && WellFormed(s[p..])
    decreases |s|
  {
    if p > 0 {
      FirstOfPrefix(s, p);
      var w := ValidWidth(s);
      WellFormedSplits(s[w..], p - w);
      assert s[..p][w..] == s[w..][..p - w] && s[w..][p - w..] == s[p..];
      hide ValidWidth;
    } else {
      assert s[p..] == s;
    }
  }

  // ----- what trimming does

  lemma {:induction false} LeadingCosts(s: Text)
    ensures Escaped(TrimLeft(s)) <= Escaped(s) && (WellFormed(s) ==> WellFormed(TrimLeft(s)))
    decreases |s|
  {
    hide SpaceWidth, ValidWidth, RuneCost;
    if SpaceWidth(s) > 0 { LeadingCosts(s[SpaceWidth(s)..]); }
  }

  /** How much white space s starts with. */
  ghost function Lead(s: Text): nat { |s| - |TrimLeft(s)| }

  /** Trimming the start of a prefix: the same, or nothing is left. */
  lemma {:induction false} LeadOfPrefix(s: Text, p: nat)
    requires Splits(s, p)
    ensures TrimLeft(s[..p]) == if Lead(s) <= p then s[Lead(s)..p] else []
    decreases |s|
  {
    hide SpaceWidth, ValidWidth, RuneStart;
    hide TrimLeft;
    TrimLeftStep(s);
    TrimLeftStep(s[..p]);
    LeadIs(s);
    if p == 0 {
      assert s[..p] == [];
    } else {
      FirstOfPrefix(s, p);
      var k := SpaceWidth(s);
      if k > 0 {
        var rest := s[k..];
        LeadOfPrefix(rest, p - k);
        assert s[..p][k..] == rest[..p - k];
        if Lead(s) <= p { assert s[Lead(s)..p] == rest[Lead(rest)..p - k]; }
      }
    }
  }

  lemma TrimLeftStep(s: Text)
    ensures TrimLeft(s) == if SpaceWidth(s) > 0 then TrimLeft(s[SpaceWidth(s)..]) else s
  {
    hide SpaceWidth;
  }

  lemma SpaceStarts(s: Text, k: nat)
    requires EndsInSpace(s, k)
    ensures RuneStart(s[|s| - k]) && forall i | |s| - k < i < |s| :: Continuation(s[i])
  {
    var t := s[|s| - k..];
    assert ValidWidth(t) == k;
    forall i | |s| - k < i < |s|
      ensures Continuation(s[i])
    {
      assert t[i - (|s| - k)] == s[i];
    }
  }

  /** Trailing white space is cut where a character starts. */
  lemma {:induction false} TrimRightSplits(s: Text)
    ensures Splits(s, |TrimRight(s)|)
    decreases |s|
  {
    hide EndsInSpace, EndWidth;
    var k := EndWidth(s);
    if k > 0 {
      SpaceStarts(s, k);
      TrimRightSplits(s[..|s| - k]);
    }
  }

  /** A longer text keeps at least as much. */
  lemma {:induction false} TrimRightGrows(s: Text, p: nat)
    requires Splits(s, p)
    ensures |TrimRight(s[..p])| <= |TrimRight(s)|
    decreases |s|
  {
    hide EndsInSpace, EndWidth;
    var k := EndWidth(s);
    if p == |s| {
      assert s[..p] == s;
    } else if k > 0 {
      SpaceStarts(s, k);
      assert s[..|s| - k][..p] == s[..p];
      TrimRightGrows(s[..|s| - k], p);
    }
  }

  /** Trimmed prefixes of one text cost more the longer they are. */
  lemma TrimRightCosts(s: Text, p: nat)
    requires Splits(s, p)
    ensures Escaped(TrimRight(s[..p])) <= Escaped(TrimRight(s)) <= Escaped(s)
  {
    hide Escaped, TrimRight, RuneStart;
    var r, r' := TrimRight(s[..p]), TrimRight(s);
    TrimRightGrows(s, p);
    TrimRightSplits(s[..p]);
    TrimRightSplits(s);
    EscapedSplits(s, |r'|);
    assert s[..|r'|] == r' && r == r'[..|r|];
    EscapedSplits(r', |r|);
  }

  // ----- what cutting does

  lemma {:induction false} BackGrows(s: Text, a: nat, b: nat)
    requires a <= b < |s|
    ensures Back(s, a) <= Back(s, b)
    decreases b
  {
    if a < b && !RuneStart(s[b]) { BackGrows(s, a, b - 1); }
  }

  lemma CutCosts(s: Text, p: nat, q: nat)
    requires Splits(s, p) && Splits(s, q) && p <= q
    ensures Escaped(TrimSpace(s[..p])) <= Escaped(TrimSpace(s[..q])) <= Escaped(s)
  {
    hide TrimRight, TrimLeft, Escaped, WellFormed, Lead;
    LeadOfPrefix(s, p);
    LeadOfPrefix(s, q);
    LeadingCosts(s);
    LeadIs(s);
    NothingLeft();
    if Lead(s) <= q {
      var l, rest := Lead(s), s[Lead(s)..];
      assert rest[..q - l] == s[l..q];
      TrimRightCosts(rest, q - l);
      if l <= p {
        assert s[l..q][..p - l] == s[l..p];
        TrimRightCosts(s[l..q], p - l);
      }
    }
  }

  lemma {:induction false} LeadIs(s: Text)
    ensures Lead(s) <= |s| && TrimLeft(s) == s[Lead(s)..]
    decreases |s|
  {
    hide SpaceWidth, TrimLeft;
    TrimLeftStep(s);
    var k := SpaceWidth(s);
    if k > 0 {
      LeadIs(s[k..]);
      assert s[k..][Lead(s[k..])..] == s[k + Lead(s[k..])..];
    }
  }

  lemma NothingLeft()
    ensures TrimRight([]) == [] && TrimLeft([]) == [] && Escaped([]) == 0
  {
  }

  /** A higher limit never costs less: what makes a binary search for the limit exact. */
  lemma TruncationGrows(s: Text, a: int, b: int)
    requires a <= b
    ensures Escaped(Truncated(s, a)) <= Escaped(Truncated(s, b))
  {
    if 0 < a < |s| && Back(s, a) > 0 {
      if b < |s| {
        BackGrows(s, a, b);
        CutCosts(s, Back(s, a), Back(s, b));
      } else {
        CutCosts(s, Back(s, a), Back(s, a));
      }
    } else if 0 < a < |s| {
      assert s[..Back(s, a)] == [] && TrimSpace([]) == [];
    }
  }

  /** Cutting well-formed text leaves well-formed text, a piece of the original. */
  lemma TruncationIsWellFormed(s: Text, limit: int)
    requires WellFormed(s)
    ensures WellFormed(Truncated(s, limit))
  {
    hide TrimRight, TrimLeft, WellFormed, ValidWidth;
    NothingLeft();
    assert WellFormed([]) by { EmptyIsWellFormed(); }
    if 0 < limit < |s| {
      var p := Back(s, limit);
      if p == 0 {
        assert s[..p] == [];
      } else {
        WellFormedSplits(s, p);
        LeadingCosts(s[..p]);
        var t := TrimLeft(s[..p]);
        TrimRightSplits(t);
        WellFormedSplits(t, |TrimRight(t)|);
        assert t[..|TrimRight(t)|] == TrimRight(t);
      }
    }
  }

  lemma EmptyIsWellFormed()
    ensures WellFormed([])
  {
  }

  lemma TruncationIsPiece(s: Text, limit: int) returns (i: nat, j: nat)
    ensures i <= j <= |s| && Truncated(s, limit) == s[i..j] && (0 < limit ==> j <= limit || j == |s|)
  {
    hide TrimRight, TrimLeft, Lead;
    i, j := 0, 0;
    if |s| <= limit {
      j := |s|;
    } else if 0 < limit {
      var cut := s[..Back(s, limit)];
      var t := TrimLeft(cut);
      LeadIs(cut);
      i := Lead(cut);
      j := i + |TrimRight(t)|;
      assert t == cut[i..] && TrimRight(t) == t[..j - i] == s[i..j];
    }
  }
}
