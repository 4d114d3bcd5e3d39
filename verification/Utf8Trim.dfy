/** What trimming and cutting leave out: white space at the ends, and nothing before the cut. */
module Utf8Trim {
  import opened Utf8

  // ----- characters

  /** Every Unicode character: a code point that is no surrogate. */
  ghost predicate IsScalar(c: int) { 0 <= c < 0xD800 || 0xE000 <= c < 0x110000 }

  ghost function Trail(c: int): Byte { 0x80 + c % 0x40 }

  /** UTF-8, as in section 3 of RFC 3629. */
  ghost function Encode(c: int): (s: Text)
    requires IsScalar(c)
  {
    var q := c / 64;
    var r := q / 64;
    if c < 0x80 then [c]
    else if c < 0x800 then [0xC0 + q, Trail(c)]
    else if c < 0x10000 then [0xE0 + r, Trail(q), Trail(c)]
    else [0xF0 + r / 64, Trail(r), Trail(q), Trail(c)]
  }

  /** The number of the character that s starts with. */
  ghost function CodePoint(s: Text): int
    requires ValidWidth(s) > 0
  {
    var b: seq<int> := s;
    match ValidWidth(s)
    case 1 => b[0]
    case 2 => More(b[0] - 0xC0, b[1])
    case 3 => More(More(b[0] - 0xE0, b[1]), b[2])
    case _ => More(More(More(b[0] - 0xF0, b[1]), b[2]), b[3])
  }

  /** Six more bits. */
  ghost function More(c: int, b: int): int { c * 64 + (b - 0x80) }

  lemma MoreIsTrail(c: int, b: Byte)
    requires Continuation(b) && 0 <= c
    ensures More(c, b) / 64 == c && Trail(More(c, b)) == b && More(c, b) == 64 * c + b - 0x80
  {
  }

  lemma TrailIsMore(c: int)
    requires 0 <= c
    ensures Continuation(Trail(c)) && More(c / 64, Trail(c)) == c
  {
  }

  lemma DecodedTwo(s: Text)
    requires ValidWidth(s) == 2
    ensures IsScalar(CodePoint(s)) && Encode(CodePoint(s)) == s[..2]
  {
    var c := CodePoint(s);
    MoreIsTrail(s[0] - 0xC0, s[1]);
    hide More, Trail;
    assert 0x80 <= c < 0x800;
  }

  lemma DecodedThree(s: Text)
    requires ValidWidth(s) == 3
    ensures IsScalar(CodePoint(s)) && Encode(CodePoint(s)) == s[..3]
  {
    var c := CodePoint(s);
    var q := More(s[0] - 0xE0, s[1]);
    MoreIsTrail(s[0] - 0xE0, s[1]);
    MoreIsTrail(q, s[2]);
    hide More, Trail;
    assert 0x800 <= c < 0x10000 && IsScalar(c);
    hide ValidWidth;
    assert c / 64 == q && q / 64 == s[0] - 0xE0;
  }

  lemma DecodedFour(s: Text)
    requires ValidWidth(s) == 4
    ensures IsScalar(CodePoint(s)) && Encode(CodePoint(s)) == s[..4]
  {
    var c := CodePoint(s);
    var r := More(s[0] - 0xF0, s[1]);
    var q := More(r, s[2]);
    MoreIsTrail(s[0] - 0xF0, s[1]);
    MoreIsTrail(r, s[2]);
    MoreIsTrail(q, s[3]);
    hide More, Trail;
    assert 0x10000 <= c < 0x110000;
    hide ValidWidth;
    assert c / 64 == q && q / 64 == r && r / 64 == s[0] - 0xF0;
  }

  /** What the decoder accepts is the encoding of a character. */
  lemma DecodedIsEncoded(s: Text)
    requires ValidWidth(s) > 0
    ensures IsScalar(CodePoint(s)) && Encode(CodePoint(s)) == s[..ValidWidth(s)]
  {
    if ValidWidth(s) == 2 {
      DecodedTwo(s);
    } else if ValidWidth(s) == 3 {
      DecodedThree(s);
    } else if ValidWidth(s) == 4 {
      DecodedFour(s);
    } else {
      assert Encode(CodePoint(s)) == [s[0]];
    }
  }

  /** And it accepts them all. */
  lemma EncodedIsDecoded(c: int, rest: Text)
    requires IsScalar(c)
    ensures ValidWidth(Encode(c) + rest) == |Encode(c)| && CodePoint(Encode(c) + rest) == c
  {
    TrailIsMore(c);
    TrailIsMore(c / 64);
    TrailIsMore(c / 64 / 64);
    hide More;
  }

  /** The characters of Unicode's White_Space property. */
  ghost predicate IsWhite(c: int) {
    || 0x9 <= c <= 0xD || c == 0x20 || c == 0x85 || c == 0xA0 || c == 0x1680 || 0x2000 <= c <= 0x200A
    || c == 0x2028 || c == 0x2029 || c == 0x202F || c == 0x205F || c == 0x3000
  }

  /** A text starts with white space exactly when its first character is white space. */
  lemma SpacesAreWhite(s: Text)
    ensures SpaceWidth(s) > 0 <==> ValidWidth(s) > 0 && IsWhite(CodePoint(s))
  {
  }

  /** White space characters and nothing else. */
  ghost predicate Blank(s: Text)
    decreases |s|
  {
    s == [] || (SpaceWidth(s) > 0 && Blank(s[SpaceWidth(s)..]))
  }

  ghost predicate EndsInNoSpace(s: Text) { forall k :: !EndsInSpace(s, k) }

  lemma BlankAppends(a: Text, b: Text)
    requires Blank(a) && Blank(b)
    ensures Blank(a + b)
    decreases |a|
  {
    if a == [] {
      assert a + b == b;
    } else {
      var k := SpaceWidth(a);
      assert SpaceWidth(a + b) == k by { SpaceOfLonger(a, b); }
      assert (a + b)[k..] == a[k..] + b;
      BlankAppends(a[k..], b);
    }
  }

  lemma SpaceOfLonger(a: Text, b: Text)
    requires SpaceWidth(a) > 0
    ensures SpaceWidth(a + b) == SpaceWidth(a)
  {
  }

  lemma {:induction false} LeftIsBlank(s: Text)
    ensures Lead(s) <= |s| && Blank(s[..Lead(s)]) && s[Lead(s)..] == TrimLeft(s) && SpaceWidth(TrimLeft(s)) == 0
    decreases |s|
  {
    hide SpaceWidth, ValidWidth;
    LeadIs(s);
    TrimLeftStep(s);
    var k := SpaceWidth(s);
    if k > 0 {
      LeftIsBlank(s[k..]);
      LeadIs(s[k..]);
      assert s[..Lead(s)] == s[..k] + s[k..][..Lead(s[k..])];
      OneSpace(s);
      BlankAppends(s[..k], s[k..][..Lead(s[k..])]);
    }
  }

  lemma OneSpace(s: Text)
    requires SpaceWidth(s) > 0
    ensures Blank(s[..SpaceWidth(s)])
  {
    var t := s[..SpaceWidth(s)];
    assert SpaceWidth(t) == |t|;
  }

  lemma {:induction false} RightIsBlank(s: Text)
    ensures |TrimRight(s)| <= |s| && TrimRight(s) == s[..|TrimRight(s)|] && Blank(s[|TrimRight(s)|..])
    ensures EndsInNoSpace(TrimRight(s))
    decreases |s|
  {
    hide SpaceWidth, ValidWidth, EndWidth;
    var k := EndWidth(s);
    if k > 0 {
      var front := s[..|s| - k];
      RightIsBlank(front);
      var n := |TrimRight(front)|;
      assert s[n..] == front[n..] + s[|s| - k..];
      EndIsBlank(s, k);
      BlankAppends(front[n..], s[|s| - k..]);
    } else {
      NoEnd(s);
    }
  }

  lemma EndIsBlank(s: Text, k: nat)
    requires EndsInSpace(s, k)
    ensures Blank(s[|s| - k..])
  {
    var t := s[|s| - k..];
    assert t[k..] == [];
  }

  lemma NoEnd(s: Text)
    requires EndWidth(s) == 0
    ensures EndsInNoSpace(s)
  {
    forall k
      ensures !EndsInSpace(s, k)
    {
      if k > 3 && EndsInSpace(s, k) { SpacesAreShort(s[|s| - k..]); }
    }
  }

  lemma SpacesAreShort(s: Text)
    ensures SpaceWidth(s) <= 3
  {
  }

  /** Trimming takes away white space at both ends, and all of it. */
  lemma TrimIsExact(s: Text) returns (a: Text, b: Text)
    ensures s == a + TrimSpace(s) + b && Blank(a) && Blank(b)
    ensures SpaceWidth(TrimSpace(s)) == 0 && EndsInNoSpace(TrimSpace(s))
  {
    hide SpaceWidth, EndsInNoSpace, Blank, TrimLeft, TrimRight;
    LeftIsBlank(s);
    var t := TrimLeft(s);
    RightIsBlank(t);
    var n := |TrimRight(t)|;
    a, b := s[..Lead(s)], t[n..];
    assert s == a + t && t == t[..n] + b;
    if n > 0 { NoSpaceShorter(t, n); } else { NothingIsNoSpace(TrimRight(t)); }
  }

  lemma NothingIsNoSpace(s: Text)
    requires s == []
    ensures SpaceWidth(s) == 0
  {
  }

  /** A text that starts with no white space has no prefix that does. */
  lemma NoSpaceShorter(s: Text, n: nat)
    requires SpaceWidth(s) == 0 && n <= |s|
    ensures SpaceWidth(s[..n]) == 0
  {
  }

  /** The cut is at the last place up to the limit where a character may start. */
  lemma {:induction false} BackIsLast(s: Text, limit: nat)
    requires limit < |s|
    ensures forall p: nat | Back(s, limit) < p <= limit :: !RuneStart(s[p])
  {
    if limit > 0 && !RuneStart(s[limit]) { BackIsLast(s, limit - 1); }
  }

  /** Between 0 and its length a text is cut there and trimmed; at its length and beyond it is left alone. */
  lemma TruncationIs(s: Text, limit: int)
    ensures limit <= 0 ==> Truncated(s, limit) == []
    ensures |s| <= limit ==> Truncated(s, limit) == s
    ensures 0 < limit < |s| ==> Truncated(s, limit) == TrimSpace(s[..Back(s, limit)])
  {
  }
}
