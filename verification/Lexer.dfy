/**
 * The lexical half of `strictJson` as functions on the unread text: white space,
 * string tokens and scalar literals, each with the two directions of its
 * agreement with the grammar.
 */
module Lexer {
  import opened Strings
  import opened Results
  import opened Json

  function SkipSpace(s: Str): (rest: Str)
    ensures |rest| <= |s|
  {
    if s != [] && IsSpace(s[0]) then SkipSpace(s[1..]) else s
  }

  lemma {:induction false} SkipSpaceSplits(s: Str) returns (gap: Str)
    ensures s == gap + SkipSpace(s) && AllSpace(gap)
    ensures SkipSpace(s) != [] ==> !IsSpace(SkipSpace(s)[0])
  {
    if s != [] && IsSpace(s[0]) {
      gap := SkipSpaceSplits(s[1..]);
      gap := [s[0]] + gap;
    } else {
      gap := [];
    }
  }

  lemma {:induction false} SkipSpaceSkips(gap: Str, rest: Str)
    requires AllSpace(gap)
    ensures SkipSpace(gap + rest) == SkipSpace(rest)
  {
    if gap == [] {
      assert gap + rest == rest;
    } else {
      assert (gap + rest)[1..] == gap[1..] + rest;
      SkipSpaceSkips(gap[1..], rest);
    }
  }

  /* String tokens. */

  function Shift(end: Option<nat>, n: nat): Option<nat> {
    if end.None? then None else Some(end.value + n)
  }

  /** Units the scan for the closing quote takes at once: a backslash takes the next one along. */
  function Stride(s: Str): nat
    requires s != []
  {
    if s[0] == BACKSLASH then 2 else 1
  }

  /** Units through the first quote that no backslash escapes. */
  function StringEnd(s: Str): (end: Option<nat>)
    ensures end.Some? ==> 0 < end.value <= |s|
  {
    if s == [] || |s| < Stride(s) then None
    else if s[0] == QUOTE then Some(1)
    else Shift(StringEnd(s[Stride(s)..]), Stride(s))
  }

  lemma {:induction false} StringEndQuotes(s: Str)
    requires StringEnd(s).Some?
    ensures s[StringEnd(s).value - 1] == QUOTE
  {
    if s[0] != QUOTE {
      StringEndQuotes(s[Stride(s)..]);
    }
  }

  /** The piece the head of `body` spells; not a piece (`IsPiece`) when it spells none. */
  function HeadPiece(body: Str): (p: Piece)
    requires body != []
    ensures IsPiece(p) ==> PieceText(p) <= body
  {
    if body[0] != BACKSLASH then Raw(body[0])
    else if |body| == 1 then Short(0)
    else if body[1] != LETTER_U then Short(body[1])
    else if |body| < 6 then Short(0)
    else Hex(body[2], body[3], body[4], body[5])
  }

  lemma HeadPieceOf(p: Piece, rest: Str)
    requires IsPiece(p)
    ensures PieceText(p) + rest != [] && HeadPiece(PieceText(p) + rest) == p
  {
    var s := PieceText(p) + rest;
    assert forall k :: 0 <= k < |PieceText(p)| ==> s[k] == PieceText(p)[k];
    match p {
      case Raw(u) => assert s[0] == u;
      case Short(letter) => assert s[1] == letter;
      case Hex(h0, h1, h2, h3) => assert s[1] == LETTER_U && s[2] == h0 && s[3] == h1 && s[4] == h2 && s[5] == h3;
    }
  }

  /** The pieces spelled by the inside of a string token, as `JSON.parse` reads it. */
  function TakePieces(body: Str): Option<seq<Piece>> {
    if body == [] then Some([])
    else
      var p := HeadPiece(body);
      if !IsPiece(p) then None
      else
        var others := TakePieces(body[|PieceText(p)|..]);
        if others.None? then None else Some([p] + others.value)
  }

  lemma {:induction false} TakePiecesSound(body: Str)
    requires TakePieces(body).Some?
    ensures ArePieces(TakePieces(body).value) && PiecesText(TakePieces(body).value) == body
  {
    if body != [] {
      var p := HeadPiece(body);
      var tail := body[|PieceText(p)|..];
      TakePiecesSound(tail);
      PiecesCons(p, TakePieces(tail).value);
      assert body == PieceText(p) + tail;
    }
  }

  lemma PiecesCons(p: Piece, ps: seq<Piece>)
    ensures PiecesText([p] + ps) == PieceText(p) + PiecesText(ps)
    ensures IsPiece(p) && ArePieces(ps) ==> ArePieces([p] + ps)
  {
    assert ([p] + ps)[1..] == ps;
  }

  lemma {:induction false} TakePiecesComplete(ps: seq<Piece>)
    requires ArePieces(ps)
    ensures TakePieces(PiecesText(ps)) == Some(ps)
  {
    if ps != [] {
      TakePiecesComplete(ps[1..]);
      HeadPieceOf(ps[0], PiecesText(ps[1..]));
      SplitAt(PieceText(ps[0]), PiecesText(ps[1..]));
      assert [ps[0]] + ps[1..] == ps;
    }
  }

  lemma SplitAt(a: Str, b: Str)
    ensures (a + b)[..|a|] == a && (a + b)[|a|..] == b
  {
  }

  lemma PlainSkips(u: Unit, tail: Str)
    requires u != QUOTE && u != BACKSLASH
    ensures StringEnd([u] + tail) == Shift(StringEnd(tail), 1)
  {
    assert ([u] + tail)[1..] == tail;
  }

  lemma EscapeSkips(u: Unit, tail: Str)
    ensures StringEnd([BACKSLASH, u] + tail) == Shift(StringEnd(tail), 2)
  {
    assert ([BACKSLASH, u] + tail)[2..] == tail;
  }

  lemma HexSkips(h0: Unit, h1: Unit, h2: Unit, h3: Unit, tail: Str)
    requires IsHex(h0) && IsHex(h1) && IsHex(h2) && IsHex(h3)
    ensures StringEnd([h0] + ([h1] + ([h2] + ([h3] + tail)))) == Shift(StringEnd(tail), 4)
  {
    PlainSkips(h3, tail);
    PlainSkips(h2, [h3] + tail);
    PlainSkips(h1, [h2] + ([h3] + tail));
    PlainSkips(h0, [h1] + ([h2] + ([h3] + tail)));
  }

  lemma StringEndSkips(p: Piece, tail: Str)
    requires IsPiece(p)
    ensures StringEnd(PieceText(p) + tail) == Shift(StringEnd(tail), |PieceText(p)|)
  {
    if p.Raw? {
      PlainSkips(p.unit, tail);
    } else if p.Short? {
      EscapeSkips(p.letter, tail);
    } else {
      var digits := [p.h0] + ([p.h1] + ([p.h2] + ([p.h3] + tail)));
      assert PieceText(p) + tail == [BACKSLASH, LETTER_U] + digits;
      EscapeSkips(LETTER_U, digits);
      HexSkips(p.h0, p.h1, p.h2, p.h3, tail);
    }
  }

  /** Scanning past pieces stays in step with them: no escape hides or invents a quote. */
  lemma {:induction false} StringEndComplete(ps: seq<Piece>, rest: Str)
    requires ArePieces(ps)
    ensures StringEnd(PiecesText(ps) + ([QUOTE] + rest)) == Some(|PiecesText(ps)| + 1)
  {
    if ps == [] {
      assert PiecesText(ps) + ([QUOTE] + rest) == [QUOTE] + rest;
    } else {
      var text, tail := PieceText(ps[0]), PiecesText(ps[1..]) + ([QUOTE] + rest);
      assert PiecesText(ps) + ([QUOTE] + rest) == text + tail by { Regroup(text, PiecesText(ps[1..]), [QUOTE] + rest); }
      StringEndComplete(ps[1..], rest);
      StringEndSkips(ps[0], tail);
    }
  }

  lemma Regroup(a: Str, b: Str, c: Str)
    ensures (a + b) + c == a + (b + c)
  {
  }

  datatype TakenText = TakenText(text: Str, rest: Str)

  /** A string token at the head of `s`: its end is found first, then its inside is decoded. */
  function TakeText(s: Str): (r: Option<TakenText>)
    requires s != [] && s[0] == QUOTE
    ensures r.Some? ==> |r.value.rest| < |s|
  {
    var end := StringEnd(s[1..]);
    if end.None? then None
    else
      var ps := TakePieces(s[1..end.value]);
      if ps.None? || !WellFormed(PiecesValue(ps.value)) then None
      else Some(TakenText(PiecesValue(ps.value), s[end.value + 1..]))
  }

  lemma TakeTextSound(s: Str) returns (ps: seq<Piece>)
    requires s != [] && s[0] == QUOTE && TakeText(s).Some?
    ensures ArePieces(ps) && s == KeyText(ps) + TakeText(s).value.rest
    ensures PiecesValue(ps) == TakeText(s).value.text && WellFormed(PiecesValue(ps))
  {
    var end := StringEnd(s[1..]).value;
    var body := s[1..end];
    ps := TakePieces(body).value;
    TakePiecesSound(body);
    StringEndQuotes(s[1..]);
    InsideQuotes(s, end + 1);
  }

  lemma InsideQuotes(s: Str, end: nat)
    requires 1 < end <= |s| && s[0] == QUOTE && s[end - 1] == QUOTE
    ensures s == ([QUOTE] + s[1..end - 1] + [QUOTE]) + s[end..]
  {
  }

  lemma TakeTextComplete(ps: seq<Piece>, rest: Str)
    requires ArePieces(ps) && WellFormed(PiecesValue(ps))
    ensures (KeyText(ps) + rest)[0] == QUOTE
    ensures TakeText(KeyText(ps) + rest) == Some(TakenText(PiecesValue(ps), rest))
  {
    var s := KeyText(ps) + rest;
    QuotedParts(PiecesText(ps), rest);
    StringEndComplete(ps, rest);
    TakePiecesComplete(ps);
  }

  lemma QuotedParts(text: Str, rest: Str)
    ensures
      var s := ([QUOTE] + text + [QUOTE]) + rest;
      s[0] == QUOTE && s[1..] == text + ([QUOTE] + rest) && s[1..1 + |text|] == text && s[|text| + 2..] == rest
  {
  }

  /* Scalar literals. */

  /** Length of the longest run of digits at the head of `s`. */
  function DigitRun(s: Str): (n: nat)
    ensures n <= |s|
  {
    if s != [] && IsDigit(s[0]) then 1 + DigitRun(s[1..]) else 0
  }

  lemma {:induction false} DigitRunSound(s: Str)
    ensures AllDigits(s[..DigitRun(s)])
  {
    if s != [] && IsDigit(s[0]) {
      DigitRunSound(s[1..]);
      assert s[..DigitRun(s)] == [s[0]] + s[1..][..DigitRun(s[1..])];
    }
  }

  lemma {:induction false} DigitRunComplete(digits: Str, rest: Str)
    requires AllDigits(digits) && (rest == [] || !IsDigit(rest[0]))
    ensures DigitRun(digits + rest) == |digits|
  {
    if digits == [] {
      assert digits + rest == rest;
    } else {
      assert (digits + rest)[1..] == digits[1..] + rest;
      DigitRunComplete(digits[1..], rest);
    }
  }

  function WholeRun(s: Str): (n: nat)
    ensures n <= |s|
  {
    if s != [] && s[0] == 0x30 then 1 else DigitRun(s)
  }

  function FractionRun(s: Str): (n: nat)
    ensures n <= |s|
  {
    if s != [] && s[0] == POINT && DigitRun(s[1..]) > 0 then 1 + DigitRun(s[1..]) else 0
  }

  function TakeSign(s: Str): (sign: Str)
    ensures sign <= s
  {
    if s != [] && s[0] in {PLUS, MINUS} then [s[0]] else []
  }

  function TakeExponent(s: Str): Exponent {
    if s != [] && s[0] in {0x65, 0x45} then
      var sign := TakeSign(s[1..]);
      var tail := s[1..][|sign|..];
      if DigitRun(tail) > 0 then Exponent(s[0], sign, tail[..DigitRun(tail)]) else NoExponent
    else NoExponent
  }

  function TakeFraction(s: Str): Str {
    if FractionRun(s) == 0 then [] else s[1..FractionRun(s)]
  }

  /** A numeral without its sign. */
  function TakeUnsigned(s: Str, negative: bool): Option<Numeral> {
    var whole := WholeRun(s);
    if whole == 0 then None
    else
      var tail := s[whole..];
      Some(Numeral(negative, s[..whole], TakeFraction(tail), TakeExponent(tail[FractionRun(tail)..])))
  }

  function TakeNumeral(s: Str): Option<Numeral> {
    if s != [] && s[0] == MINUS then TakeUnsigned(s[1..], true) else TakeUnsigned(s, false)
  }

  lemma TakeExponentSound(s: Str)
    ensures IsExponent(TakeExponent(s)) && ExponentText(TakeExponent(s)) <= s
  {
    var e := TakeExponent(s);
    if e.Exponent? {
      var tail := s[1..][|e.sign|..];
      DigitRunSound(tail);
      Joined([e.marker], e.sign, e.digits, s);
    }
  }

  lemma TakeFractionSound(s: Str)
    ensures AllDigits(TakeFraction(s)) && FractionText(TakeFraction(s)) == s[..FractionRun(s)]
  {
    if FractionRun(s) > 0 {
      DigitRunSound(s[1..]);
      assert TakeFraction(s) == s[1..][..DigitRun(s[1..])];
    }
  }

  function UnsignedText(n: Numeral): Str {
    n.whole + FractionText(n.fraction) + ExponentText(n.exponent)
  }

  lemma Joined(a: Str, b: Str, c: Str, s: Str)
    requires a <= s && b <= s[|a|..] && c <= s[|a|..][|b|..]
    ensures a + b + c <= s
  {
  }

  lemma TakeUnsignedSound(s: Str, negative: bool)
    requires TakeUnsigned(s, negative).Some?
    ensures
      var n := TakeUnsigned(s, negative).value;
      IsNumeral(n) && UnsignedText(n) <= s && n.negative == negative
  {
    var n := TakeUnsigned(s, negative).value;
    DigitRunSound(s);
    assert n.whole[0] == s[0];
    assert AllDigits(n.whole);
    var tail := s[|n.whole|..];
    TakeFractionSound(tail);
    TakeExponentSound(tail[FractionRun(tail)..]);
    Joined(n.whole, FractionText(n.fraction), ExponentText(n.exponent), s);
  }

  lemma SignedText(n: Numeral)
    ensures NumeralText(n) == (if n.negative then [MINUS] else []) + UnsignedText(n)
  {
    assert n.negative || NumeralText(n) == UnsignedText(n);
  }

  lemma PrefixCons(u: Unit, text: Str, s: Str)
    requires s != [] && s[0] == u && text <= s[1..]
    ensures [u] + text <= s
  {
  }

  lemma TakeNumeralSound(s: Str)
    requires TakeNumeral(s).Some?
    ensures IsNumeral(TakeNumeral(s).value) && NumeralText(TakeNumeral(s).value) <= s
  {
    var n := TakeNumeral(s).value;
    if s != [] && s[0] == MINUS {
      TakeUnsignedSound(s[1..], true);
      SignedText(n);
      PrefixCons(MINUS, UnsignedText(n), s);
    } else {
      TakeUnsignedSound(s, false);
      SignedText(n);
      assert NumeralText(n) == UnsignedText(n);
    }
  }

  /** What the grammar lets follow a value: the end, white space, a comma or a closer. */
  predicate Follows(rest: Str) {
    rest == [] || IsSpace(rest[0]) || rest[0] in {COMMA, CLOSE_ARRAY, CLOSE_OBJECT}
  }

  lemma TakeExponentComplete(e: Exponent, rest: Str)
    requires IsExponent(e) && Follows(rest)
    ensures TakeExponent(ExponentText(e) + rest) == e
  {
    if e.NoExponent? {
      assert ExponentText(e) + rest == rest;
    } else {
      Reassociate([e.marker], e.sign, e.digits, rest);
      DigitRunComplete(e.digits, rest);
      SplitAt(e.digits, rest);
      assert (e.digits + rest)[0] == e.digits[0];
      TakesExponent(e, e.digits + rest);
    }
  }

  lemma TakesExponent(e: Exponent, tail: Str)
    requires e.Exponent? && e.marker in {0x65, 0x45}
    requires e.sign == [] || e.sign == [PLUS] || e.sign == [MINUS]
    requires DigitRun(tail) == |e.digits| > 0 && tail[..|e.digits|] == e.digits && IsDigit(tail[0])
    ensures TakeExponent([e.marker] + (e.sign + tail)) == e
  {
    SplitAt([e.marker], e.sign + tail);
    TakeSignComplete(e.sign, tail);
  }

  lemma TakeSignComplete(sign: Str, tail: Str)
    requires sign == [] || sign == [PLUS] || sign == [MINUS]
    requires tail != [] && IsDigit(tail[0])
    ensures TakeSign(sign + tail) == sign && (sign + tail)[|sign|..] == tail
  {
    assert sign == [] ==> sign + tail == tail;
  }

  lemma TakeFractionComplete(fraction: Str, rest: Str)
    requires AllDigits(fraction)
    requires rest == [] || (!IsDigit(rest[0]) && rest[0] != POINT)
    ensures TakeFraction(FractionText(fraction) + rest) == fraction
    ensures FractionRun(FractionText(fraction) + rest) == |FractionText(fraction)|
  {
    var s := FractionText(fraction) + rest;
    if fraction == [] {
      assert s == rest;
    } else {
      assert s[1..] == fraction + rest;
      DigitRunComplete(fraction, rest);
      assert s[1..1 + |fraction|] == fraction;
    }
  }

  lemma TakeUnsignedComplete(n: Numeral, rest: Str)
    requires IsNumeral(n) && Follows(rest)
    ensures TakeUnsigned(UnsignedText(n) + rest, n.negative) == Some(n)
  {
    var end := ExponentText(n.exponent) + rest;
    var tail := FractionText(n.fraction) + end;
    assert UnsignedText(n) + rest == n.whole + tail by {
      Reassociate(n.whole, FractionText(n.fraction), ExponentText(n.exponent), rest);
    }
    assert end == [] || (!IsDigit(end[0]) && end[0] != POINT) by {
      if n.exponent.NoExponent? { assert end == rest; } else { assert end[0] == n.exponent.marker; }
    }
    assert tail == [] || !IsDigit(tail[0]) by {
      if n.fraction == [] { assert tail == end; }
    }
    DigitRunComplete(n.whole, tail);
    assert (n.whole + tail)[0] == n.whole[0];
    SplitAt(n.whole, tail);
    TakeFractionComplete(n.fraction, end);
    SplitAt(FractionText(n.fraction), end);
    TakeExponentComplete(n.exponent, rest);
  }

  lemma Reassociate(a: Str, b: Str, c: Str, d: Str)
    ensures (a + b + c) + d == a + (b + (c + d))
  {
  }

  lemma TakeNumeralComplete(n: Numeral, rest: Str)
    requires IsNumeral(n) && Follows(rest)
    ensures NumeralText(n) != []
    ensures NumeralText(n)[0] == if n.negative then MINUS else n.whole[0]
    ensures TakeNumeral(NumeralText(n) + rest) == Some(n)
  {
    SignedText(n);
    TakeUnsignedComplete(n, rest);
    var text := UnsignedText(n);
    assert text[0] == n.whole[0];
    if n.negative {
      LeadingUnit(MINUS, text, rest);
    } else {
      assert NumeralText(n) == text;
      assert (text + rest)[0] == text[0];
    }
  }

  lemma LeadingUnit(u: Unit, text: Str, rest: Str)
    ensures (([u] + text) + rest)[0] == u && (([u] + text) + rest)[1..] == text + rest
  {
  }

  /** The literal the source's regular expression matches at the head of `s`. */
  function TakeLiteral(s: Str): Option<Tree> {
    if NULL_WORD <= s then Some(NullTree)
    else if TRUE_WORD <= s then Some(TrueTree)
    else if FALSE_WORD <= s then Some(FalseTree)
    else
      var n := TakeNumeral(s);
      if n.None? then None else Some(NumberTree(n.value))
  }

  predicate IsLiteral(t: Tree) {
    t.NullTree? || t.TrueTree? || t.FalseTree? || t.NumberTree?
  }

  lemma TakeLiteralSound(s: Str)
    requires TakeLiteral(s).Some?
    ensures
      var t := TakeLiteral(s).value;
      IsLiteral(t) && IsTree(t) && TreeText(t) <= s && |TreeText(t)| > 0
  {
    if TakeLiteral(s).value.NumberTree? {
      TakeNumeralSound(s);
    }
  }

  lemma WordHeads(s: Str)
    ensures NULL_WORD <= s ==> s[0] == 0x6E
    ensures TRUE_WORD <= s ==> s[0] == 0x74
    ensures FALSE_WORD <= s ==> s[0] == 0x66
  {
  }

  lemma TakeLiteralComplete(t: Tree, rest: Str)
    requires IsLiteral(t) && IsTree(t) && Follows(rest)
    ensures TakeLiteral(TreeText(t) + rest) == Some(t)
    ensures
      var c := (TreeText(t) + rest)[0];
      c != QUOTE && c != OPEN_ARRAY && c != OPEN_OBJECT && !IsSpace(c)
  {
    var s := TreeText(t) + rest;
    WordHeads(s);
    if t.NumberTree? {
      TakeNumeralComplete(t.numeral, rest);
      assert s[0] == NumeralText(t.numeral)[0];
    } else {
      assert TreeText(t) <= s;
    }
  }
}
