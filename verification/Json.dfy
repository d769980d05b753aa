/**
 * JSON values, and the grammar of RFC 8259 (sections 2 to 7) as concrete syntax
 * trees over UTF-16 code units. A tree spells one text (`TreeText`) and denotes
 * one value (`TreeValue`); nothing here knows about the parser.
 */
module Json {
  import opened Strings

  /** An object is a map: the order of its keys carries no meaning. Numbers are exact. */
  datatype Json =
    | Null
    | Bool(b: bool)
    | Number(n: real)
    | Text(s: Str)
    | Array(items: seq<Json>)
    | Object(fields: map<Str, Json>)

  const QUOTE: Unit := 0x22
  const BACKSLASH: Unit := 0x5C
  const COMMA: Unit := 0x2C
  const COLON: Unit := 0x3A
  const OPEN_ARRAY: Unit := 0x5B
  const CLOSE_ARRAY: Unit := 0x5D
  const OPEN_OBJECT: Unit := 0x7B
  const CLOSE_OBJECT: Unit := 0x7D
  const MINUS: Unit := 0x2D
  const PLUS: Unit := 0x2B
  const LETTER_U: Unit := 0x75
  const POINT: Unit := 0x2E
  const NULL_WORD: Str := [0x6E, 0x75, 0x6C, 0x6C]
  const TRUE_WORD: Str := [0x74, 0x72, 0x75, 0x65]
  const FALSE_WORD: Str := [0x66, 0x61, 0x6C, 0x73, 0x65]

  predicate IsSpace(u: Unit) {
    u == 0x20 || u == 0x0A || u == 0x0D || u == 0x09
  }

  predicate AllSpace(s: Str) {
    forall i :: 0 <= i < |s| ==> IsSpace(s[i])
  }

  predicate IsDigit(u: Unit) {
    0x30 <= u <= 0x39
  }

  predicate AllDigits(s: Str) {
    forall i :: 0 <= i < |s| ==> IsDigit(s[i])
  }

  predicate IsHex(u: Unit) {
    IsDigit(u) || 0x41 <= u <= 0x46 || 0x61 <= u <= 0x66
  }

  /* Strings: section 7. */

  datatype Piece =
    | Raw(unit: Unit)            // a character that needs no escape
    | Short(letter: Unit)        // backslash and one letter
    | Hex(h0: Unit, h1: Unit, h2: Unit, h3: Unit) // backslash, 'u', four hexadecimal digits

  predicate IsShort(letter: Unit) {
    letter in {0x22, 0x5C, 0x2F, 0x62, 0x66, 0x6E, 0x72, 0x74}
  }

  function ShortValue(letter: Unit): Unit {
    if letter == 0x62 then 0x08
    else if letter == 0x66 then 0x0C
    else if letter == 0x6E then 0x0A
    else if letter == 0x72 then 0x0D
    else if letter == 0x74 then 0x09
    else letter
  }

  function HexDigit(u: Unit): (d: nat)
    ensures d < 16
  {
    if IsDigit(u) then u - 0x30
    else if 0x41 <= u <= 0x46 then u - 0x41 + 10
    else if 0x61 <= u <= 0x66 then u - 0x61 + 10
    else 0
  }

  predicate IsPiece(p: Piece) {
    match p
    case Raw(u) => u >= 0x20 && u != QUOTE && u != BACKSLASH
    case Short(letter) => IsShort(letter)
    case Hex(h0, h1, h2, h3) => IsHex(h0) && IsHex(h1) && IsHex(h2) && IsHex(h3)
  }

  function PieceText(p: Piece): Str {
    match p
    case Raw(u) => [u]
    case Short(letter) => [BACKSLASH, letter]
    case Hex(h0, h1, h2, h3) => [BACKSLASH, LETTER_U, h0, h1, h2, h3]
  }

  function PieceValue(p: Piece): Unit {
    match p
    case Raw(u) => u
    case Short(letter) => ShortValue(letter)
    case Hex(h0, h1, h2, h3) => 0x1000 * HexDigit(h0) + 0x100 * HexDigit(h1) + 0x10 * HexDigit(h2) + HexDigit(h3)
  }

  predicate ArePieces(ps: seq<Piece>) {
    forall i :: 0 <= i < |ps| ==> IsPiece(ps[i])
  }

  function PiecesText(ps: seq<Piece>): Str {
    if ps == [] then [] else PieceText(ps[0]) + PiecesText(ps[1..])
  }

  function PiecesValue(ps: seq<Piece>): (s: Str)
    ensures |s| == |ps|
  {
    if ps == [] then [] else [PieceValue(ps[0])] + PiecesValue(ps[1..])
  }

  predicate IsHigh(u: Unit) {
    0xD800 <= u <= 0xDBFF
  }

  predicate IsLow(u: Unit) {
    0xDC00 <= u <= 0xDFFF
  }

  /** No surrogate is unpaired. */
  predicate WellFormed(s: Str) {
    if s == [] then true
    else if IsHigh(s[0]) then |s| >= 2 && IsLow(s[1]) && WellFormed(s[2..])
    else !IsLow(s[0]) && WellFormed(s[1..])
  }

  /* Numbers: section 6. */

  datatype Exponent = NoExponent | Exponent(marker: Unit, sign: Str, digits: Str)

  datatype Numeral = Numeral(negative: bool, whole: Str, fraction: Str, exponent: Exponent)

  predicate IsExponent(e: Exponent) {
    match e
    case NoExponent => true
    case Exponent(marker, sign, digits) =>
      && marker in {0x65, 0x45}
      && (sign == [] || sign == [PLUS] || sign == [MINUS])
      && digits != [] && AllDigits(digits)
  }

  /** An empty fraction is an absent one. */
  predicate IsNumeral(n: Numeral) {
    && n.whole != [] && AllDigits(n.whole) && (n.whole[0] == 0x30 ==> |n.whole| == 1)
    && AllDigits(n.fraction)
    && IsExponent(n.exponent)
  }

  function ExponentText(e: Exponent): Str {
    match e
    case NoExponent => []
    case Exponent(marker, sign, digits) => [marker] + sign + digits
  }

  function FractionText(fraction: Str): Str {
    if fraction == [] then [] else [POINT] + fraction
  }

  function NumeralText(n: Numeral): Str {
    (if n.negative then [MINUS] else []) + n.whole + FractionText(n.fraction) + ExponentText(n.exponent)
  }

  function DigitValue(u: Unit): nat {
    if IsDigit(u) then u - 0x30 else 0
  }

  function DigitsValue(digits: Str): nat {
    if digits == [] then 0
    else DigitsValue(digits[..|digits| - 1]) * 10 + DigitValue(digits[|digits| - 1])
  }

  function Power10(n: nat): (p: nat)
    ensures p > 0
  {
    if n == 0 then 1 else 10 * Power10(n - 1)
  }

  function NumeralValue(n: Numeral): real {
    var mantissa := DigitsValue(n.whole) as real + DigitsValue(n.fraction) as real / Power10(|n.fraction|) as real;
    var scaled :=
      match n.exponent
      case NoExponent => mantissa
      case Exponent(_, sign, digits) =>
        if sign == [MINUS] then mantissa / Power10(DigitsValue(digits)) as real
        else mantissa * Power10(DigitsValue(digits)) as real;
    if n.negative then -scaled else scaled
  }

  /**
   * The double nearest to `x` is finite and its magnitude is at most 2^53 - 1.
   * Doubles next to 2^53 - 1 are one apart and a tie goes to the even 2^53.
   */
  predicate Bounded(x: real) {
    -9007199254740991.5 < x < 9007199254740991.5
  }

  /* Values: sections 2 to 5. */

  datatype Tree =
    | NullTree
    | TrueTree
    | FalseTree
    | NumberTree(numeral: Numeral)
    | TextTree(pieces: seq<Piece>)
    | EmptyArray(gap: Str)
    | ArrayTree(elements: seq<Element>)
    | EmptyObject(gap: Str)
    | ObjectTree(members: seq<Member>)

  datatype Element = Element(before: Str, tree: Tree, after: Str)

  datatype Member = Member(before: Str, key: seq<Piece>, middle: Str, element: Element)

  predicate IsTree(t: Tree)
    decreases t
  {
    match t
    case NumberTree(n) => IsNumeral(n)
    case TextTree(ps) => ArePieces(ps)
    case EmptyArray(gap) => AllSpace(gap)
    case EmptyObject(gap) => AllSpace(gap)
    case ArrayTree(es) => es != [] && forall i :: 0 <= i < |es| ==> IsElement(es[i])
    case ObjectTree(ms) => ms != [] && forall i :: 0 <= i < |ms| ==> IsMember(ms[i])
    case _ => true
  }

  predicate IsElement(e: Element)
    decreases e
  {
    AllSpace(e.before) && AllSpace(e.after) && IsTree(e.tree)
  }

  predicate IsMember(m: Member)
    decreases m
  {
    AllSpace(m.before) && ArePieces(m.key) && AllSpace(m.middle) && IsElement(m.element)
  }

  function KeyText(ps: seq<Piece>): Str {
    [QUOTE] + PiecesText(ps) + [QUOTE]
  }

  function TreeText(t: Tree): Str
    decreases t
  {
    match t
    case NullTree => NULL_WORD
    case TrueTree => TRUE_WORD
    case FalseTree => FALSE_WORD
    case NumberTree(n) => NumeralText(n)
    case TextTree(ps) => KeyText(ps)
    case EmptyArray(gap) => [OPEN_ARRAY] + gap + [CLOSE_ARRAY]
    case ArrayTree(es) => [OPEN_ARRAY] + ElementsText(es) + [CLOSE_ARRAY]
    case EmptyObject(gap) => [OPEN_OBJECT] + gap + [CLOSE_OBJECT]
    case ObjectTree(ms) => [OPEN_OBJECT] + MembersText(ms) + [CLOSE_OBJECT]
  }

  function ElementText(e: Element): Str
    decreases e
  {
    e.before + TreeText(e.tree) + e.after
  }

  function MemberText(m: Member): Str
    decreases m
  {
    m.before + KeyText(m.key) + m.middle + [COLON] + ElementText(m.element)
  }

  function ElementsText(es: seq<Element>): Str
    decreases es
  {
    if es == [] then []
    else if |es| == 1 then ElementText(es[0])
    else ElementText(es[0]) + [COMMA] + ElementsText(es[1..])
  }

  function MembersText(ms: seq<Member>): Str
    decreases ms
  {
    if ms == [] then []
    else if |ms| == 1 then MemberText(ms[0])
    else MemberText(ms[0]) + [COMMA] + MembersText(ms[1..])
  }

  function TreeValue(t: Tree): Json
    decreases t
  {
    match t
    case NullTree => Null
    case TrueTree => Bool(true)
    case FalseTree => Bool(false)
    case NumberTree(n) => Number(NumeralValue(n))
    case TextTree(ps) => Text(PiecesValue(ps))
    case EmptyArray(_) => Array([])
    case ArrayTree(es) => Array(ElementsValue(es))
    case EmptyObject(_) => Object(map[])
    case ObjectTree(ms) => Object(MembersValue(ms, map[]))
  }

  function ElementsValue(es: seq<Element>): (items: seq<Json>)
    ensures |items| == |es|
    decreases es
  {
    if es == [] then [] else [TreeValue(es[0].tree)] + ElementsValue(es[1..])
  }

  /** The object that results when the members are added to `fields` in turn. */
  function MembersValue(ms: seq<Member>, fields: map<Str, Json>): map<Str, Json>
    decreases ms
  {
    if ms == [] then fields
    else MembersValue(ms[1..], fields[PiecesValue(ms[0].key) := TreeValue(ms[0].element.tree)])
  }

  /** Containers around the innermost value; an empty container adds none. */
  function TreeDepth(t: Tree): nat
    decreases t
  {
    match t
    case ArrayTree(es) => 1 + ElementsDepth(es)
    case ObjectTree(ms) => 1 + MembersDepth(ms)
    case _ => 0
  }

  function Max(a: nat, b: nat): nat {
    if a < b then b else a
  }

  function ElementsDepth(es: seq<Element>): nat
    decreases es
  {
    if es == [] then 0 else Max(TreeDepth(es[0].tree), ElementsDepth(es[1..]))
  }

  function MembersDepth(ms: seq<Member>): nat
    decreases ms
  {
    if ms == [] then 0 else Max(TreeDepth(ms[0].element.tree), MembersDepth(ms[1..]))
  }

  predicate DistinctKeys(ms: seq<Member>) {
    forall i, j :: 0 <= i < j < |ms| ==> PiecesValue(ms[i].key) != PiecesValue(ms[j].key)
  }

  /** What is demanded beyond the grammar: paired surrogates, bounded numbers, distinct keys. */
  predicate Strict(t: Tree)
    decreases t
  {
    match t
    case NumberTree(n) => Bounded(NumeralValue(n))
    case TextTree(ps) => WellFormed(PiecesValue(ps))
    case ArrayTree(es) => forall i :: 0 <= i < |es| ==> Strict(es[i].tree)
    case ObjectTree(ms) =>
      && DistinctKeys(ms)
      && forall i :: 0 <= i < |ms| ==> WellFormed(PiecesValue(ms[i].key)) && Strict(ms[i].element.tree)
    case _ => true
  }

  /** Bytes of `s` in UTF-8; an unpaired surrogate is encoded as U+FFFD, three bytes. */
  function Utf8Length(s: Str): nat {
    if s == [] then 0
    else if s[0] < 0x80 then 1 + Utf8Length(s[1..])
    else if s[0] < 0x800 then 2 + Utf8Length(s[1..])
    else if IsHigh(s[0]) && |s| >= 2 && IsLow(s[1]) then 4 + Utf8Length(s[2..])
    else 3 + Utf8Length(s[1..])
  }
}
