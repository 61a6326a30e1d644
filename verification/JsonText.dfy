/**
 JSON strings and numbers as they are printed: a string is a sequence of UTF-16 code units, quoted with the
 escapes of section 7 of RFC 8259, a lone surrogate being escaped too. Two printed strings are never
 confused, whatever follows them.
 */
module JsonText {
  import opened Prelude

  type Unit = u: nat | u < 0x10000

  type Text = seq<Unit>

  const QUOTE: Unit := 0x22
  const BACKSLASH: Unit := 0x5c
  const LETTER_U: Unit := 0x75

  predicate High(u: Unit) {
    0xd800 <= u <= 0xdbff
  }

  predicate Low(u: Unit) {
    0xdc00 <= u <= 0xdfff
  }

  /** The letter of a two-character escape, or 0. */
  function ShortEscape(u: Unit): (letter: Unit)
    ensures letter != LETTER_U
  {
    if u == 0x08 then 0x62
    else if u == 0x09 then 0x74
    else if u == 0x0a then 0x6e
    else if u == 0x0c then 0x66
    else if u == 0x0d then 0x72
    else if u == QUOTE then QUOTE
    else if u == BACKSLASH then BACKSLASH
    else 0
  }

  function Digit(d: nat): Unit
    requires d < 16
  {
    if d < 10 then 0x30 + d else 0x57 + d
  }

  function HexEscape(u: Unit): Text {
    [BACKSLASH, LETTER_U, Digit(u / 16 / 16 / 16), Digit(u / 16 / 16 % 16), Digit(u / 16 % 16), Digit(u % 16)]
  }

  predicate Paired(s: Text) {
    |s| > 1 && High(s[0]) && Low(s[1])
  }

  /** How many units the first printed piece stands for, and the piece. */
  function Taken(s: Text): (n: nat)
    requires s != []
    ensures 0 < n <= |s|
  {
    if Paired(s) then 2 else 1
  }

  function Piece(s: Text): (p: Text)
    requires s != []
    ensures p != []
  {
    if Paired(s) then s[..2]
    else if ShortEscape(s[0]) != 0 then [BACKSLASH, ShortEscape(s[0])]
    else if s[0] < 0x20 || High(s[0]) || Low(s[0]) then HexEscape(s[0])
    else [s[0]]
  }

  function Escaped(s: Text): Text {
    if s == [] then [] else Piece(s) + Escaped(s[Taken(s)..])
  }

  function Quoted(s: Text): Text {
    [QUOTE] + Escaped(s) + [QUOTE]
  }

  lemma DigitDecides(d: nat, e: nat)
    requires d < 16 && e < 16 && Digit(d) == Digit(e)
    ensures d == e
  {
  }

  lemma HexDecides(u: Unit, v: Unit)
    requires HexEscape(u) == HexEscape(v)
    ensures u == v
  {
    var p, q := HexEscape(u), HexEscape(v);
    assert p[2] == q[2] && p[3] == q[3] && p[4] == q[4] && p[5] == q[5];
    DigitDecides(u / 16 / 16 / 16, v / 16 / 16 / 16);
    DigitDecides(u / 16 / 16 % 16, v / 16 / 16 % 16);
    DigitDecides(u / 16 % 16, v / 16 % 16);
    DigitDecides(u % 16, v % 16);
  }

  /**
   A piece of one unit prints itself; of two units it starts with a backslash or a high surrogate; of six
   with a hexadecimal escape.
   */
  lemma PieceShape(s: Text)
    requires s != []
    ensures Piece(s)[0] != QUOTE
    ensures |Piece(s)| == 1 ==> !Paired(s) && Piece(s) == [s[0]] && !High(s[0]) && s[0] != BACKSLASH
    ensures |Piece(s)| == 2 ==> Paired(s) || (Piece(s) == [BACKSLASH, ShortEscape(s[0])] && !Paired(s))
    ensures |Piece(s)| == 6 ==> !Paired(s) && Piece(s) == HexEscape(s[0])
    ensures |Piece(s)| in {1, 2, 6}
    ensures Paired(s) ==> Piece(s) == [s[0], s[1]]
  {
  }

  lemma SamePiece(s: Text, t: Text)
    requires s != [] && t != [] && Piece(s) == Piece(t)
    ensures Taken(s) == Taken(t) && s[..Taken(s)] == t[..Taken(t)]
  {
    PieceShape(s);
    PieceShape(t);
    var p, q := Piece(s), Piece(t);
    assert p[0] == q[0];
    if |p| == 6 {
      HexDecides(s[0], t[0]);
    } else if |p| == 2 {
      assert p[1] == q[1];
    }
  }

  /** No piece begins another one. */
  lemma PiecesDiffer(s: Text, t: Text, x: Text, y: Text)
    requires s != [] && t != [] && Piece(s) + x == Piece(t) + y
    ensures Piece(s) == Piece(t) && x == y
  {
    var p, q := Piece(s), Piece(t);
    PieceShape(s);
    PieceShape(t);
    hide Piece;
    var whole := p + x;
    assert whole[0] == p[0] && whole[0] == q[0];
    if |p| > 1 && |q| > 1 {
      assert whole[1] == p[1] && whole[1] == q[1];
    }
    assert |p| == |q|;
    assert whole[..|p|] == p && whole[..|q|] == q && whole[|p|..] == x && whole[|q|..] == y;
  }

  lemma StartsInside(s: Text, x: Text)
    requires s != []
    ensures (Escaped(s) + [QUOTE] + x)[0] != QUOTE
    ensures Escaped(s) + [QUOTE] + x == Piece(s) + (Escaped(s[Taken(s)..]) + [QUOTE] + x)
  {
    PieceShape(s);
    hide Piece, Taken;
    var rest := Escaped(s[Taken(s)..]);
    JoinAssociates(Piece(s), rest, [QUOTE]);
    JoinAssociates(Piece(s), rest + [QUOTE], x);
    assert (Piece(s) + (rest + [QUOTE] + x))[0] == Piece(s)[0];
  }

  /** The closing quote of a printed string is found wherever the text goes on after it. */
  lemma {:induction false} EscapedEnds(s: Text, t: Text, x: Text, y: Text)
    requires Escaped(s) + [QUOTE] + x == Escaped(t) + [QUOTE] + y
    ensures s == t && x == y
    decreases |s| + |t|
  {
    if s != [] {
      StartsInside(s, x);
    }
    if t != [] {
      StartsInside(t, y);
    }
    if s == [] {
      assert Escaped(s) + [QUOTE] + x == [QUOTE] + x;
      assert t == [];
      assert x == ([QUOTE] + x)[1..] && y == ([QUOTE] + y)[1..];
    } else {
      assert Escaped([]) + [QUOTE] + y == [QUOTE] + y;
      assert t != [];
      MorePieces(s, t, x, y);
      EscapedEnds(s[Taken(s)..], t[Taken(t)..], x, y);
      SamePiece(s, t);
      assert s == s[..Taken(s)] + s[Taken(s)..] && t == t[..Taken(t)] + t[Taken(t)..];
    }
  }

  lemma MorePieces(s: Text, t: Text, x: Text, y: Text)
    requires s != [] && t != [] && Escaped(s) + [QUOTE] + x == Escaped(t) + [QUOTE] + y
    ensures Piece(s) == Piece(t)
    ensures Escaped(s[Taken(s)..]) + [QUOTE] + x == Escaped(t[Taken(t)..]) + [QUOTE] + y
  {
    hide Escaped, Piece;
    StartsInside(s, x);
    StartsInside(t, y);
    PiecesDiffer(s, t, Escaped(s[Taken(s)..]) + [QUOTE] + x, Escaped(t[Taken(t)..]) + [QUOTE] + y);
  }

  lemma QuotedEnds(s: Text, t: Text, x: Text, y: Text)
    requires Quoted(s) + x == Quoted(t) + y
    ensures s == t && x == y
  {
    assert (Quoted(s) + x)[1..] == Escaped(s) + [QUOTE] + x;
    assert (Quoted(t) + y)[1..] == Escaped(t) + [QUOTE] + y;
    EscapedEnds(s, t, x, y);
  }

  // --------------------------------------------------------------- numbers

  /** Digits, sign, decimal point and exponent mark: the alphabet of section 6 of RFC 8259. */
  predicate NumberUnit(u: Unit) {
    0x30 <= u <= 0x39 || u == 0x2d || u == 0x2b || u == 0x2e || u == 0x65
  }

  predicate NumberToken(t: Text) {
    t != [] && (t[0] == 0x2d || 0x30 <= t[0] <= 0x39) && forall i :: 0 <= i < |t| ==> NumberUnit(t[i])
  }

  /** Nothing that goes on printing a number follows. */
  predicate Stops(x: Text) {
    x == [] || !NumberUnit(x[0])
  }

  /** A number ends where its alphabet does. */
  lemma TokensEnd(s: Text, t: Text, x: Text, y: Text)
    requires NumberToken(s) && NumberToken(t) && Stops(x) && Stops(y) && s + x == t + y
    ensures s == t && x == y
  {
    var whole := s + x;
    assert forall i :: 0 <= i < |t| ==> NumberUnit(whole[i]);
    assert forall i :: 0 <= i < |s| ==> NumberUnit(whole[i]);
    assert |s| < |whole| ==> whole[|s|] == x[0];
    assert |t| < |whole| ==> whole[|t|] == y[0];
    assert |s| == |t|;
    assert s == whole[..|s|] && t == whole[..|t|];
    assert x == whole[|s|..] && y == whole[|t|..];
  }

  // --------------------------------------------------------------- key order

  /** The order in which keys are sorted: unit by unit, a prefix first. */
  predicate Before(s: Text, t: Text) {
    t != [] && (s == [] || s[0] < t[0] || (s[0] == t[0] && Before(s[1..], t[1..])))
  }

  lemma {:induction false} BeforeIsTotal(s: Text, t: Text)
    ensures s == t || Before(s, t) || Before(t, s)
    ensures !(Before(s, t) && Before(t, s)) && !Before(s, s)
  {
    if s != [] && t != [] {
      BeforeIsTotal(s[1..], t[1..]);
      BeforeIsTotal(s[1..], s[1..]);
      assert s == [s[0]] + s[1..] && t == [t[0]] + t[1..];
    } else if s != [] {
      BeforeIsTotal(s[1..], []);
      BeforeIsTotal(s[1..], s[1..]);
    }
  }

  lemma {:induction false} BeforeIsTransitive(s: Text, t: Text, u: Text)
    requires Before(s, t) && Before(t, u)
    ensures Before(s, u)
  {
    if s != [] && s[0] == t[0] && t[0] == u[0] {
      BeforeIsTransitive(s[1..], t[1..], u[1..]);
    }
  }
}
