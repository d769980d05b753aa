/**
 * `canonical`: the printer that `strictJson` undoes. Object keys are sorted, so
 * the text depends on the value alone, and different values print differently.
 */
module Canonical {
  import opened Strings
  import opened Results
  import opened Json
  import opened Grammar
  import opened StrictJson

  /* Strings, as `JSON.stringify` quotes them. */

  function HexLetter(d: nat): Unit
    requires d < 16
  {
    if d < 10 then 0x30 + d else 0x61 + d - 10
  }

  function HexPiece(u: Unit): Piece {
    Nibbles(u);
    Hex(HexLetter(u / 0x1000), HexLetter(u / 0x100 % 16), HexLetter(u / 0x10 % 16), HexLetter(u % 16))
  }

  function QuotePiece(u: Unit): Piece {
    if u == QUOTE || u == BACKSLASH then Short(u)
    else if u == 0x08 then Short(0x62)
    else if u == 0x0C then Short(0x66)
    else if u == 0x0A then Short(0x6E)
    else if u == 0x0D then Short(0x72)
    else if u == 0x09 then Short(0x74)
    else if u < 0x20 || IsHigh(u) || IsLow(u) then HexPiece(u)
    else Raw(u)
  }

  /** A surrogate pair is printed as it is, an unpaired surrogate as an escape. */
  function QuotePieces(s: Str): seq<Piece> {
    if s == [] then []
    else if IsHigh(s[0]) && |s| >= 2 && IsLow(s[1]) then [Raw(s[0])] + ([Raw(s[1])] + QuotePieces(s[2..]))
    else [QuotePiece(s[0])] + QuotePieces(s[1..])
  }

  function Quote(s: Str): Str {
    KeyText(QuotePieces(s))
  }

  lemma QuotePieceValue(u: Unit)
    ensures IsPiece(QuotePiece(u)) && PieceValue(QuotePiece(u)) == u
  {
    if QuotePiece(u).Hex? {
      Nibbles(u);
    }
  }

  lemma Nibbles(u: Unit)
    ensures 0 <= u / 0x1000 < 16
    ensures 0x1000 * (u / 0x1000) + 0x100 * (u / 0x100 % 16) + 0x10 * (u / 0x10 % 16) + u % 16 == u
  {
    var a, b, c := u / 16, u / 16 / 16, u / 16 / 16 / 16;
    assert u == 16 * a + u % 16 && a == 16 * b + a % 16 && b == 16 * c + b % 16;
    assert u / 0x100 == b && u / 0x1000 == c;
  }

  lemma {:induction false} QuoteValue(s: Str)
    ensures ArePieces(QuotePieces(s)) && PiecesValue(QuotePieces(s)) == s
  {
    if s == [] {
    } else if IsHigh(s[0]) && |s| >= 2 && IsLow(s[1]) {
      QuoteValue(s[2..]);
      PairValue(s[0], s[1], QuotePieces(s[2..]));
      assert s == [s[0]] + ([s[1]] + s[2..]);
    } else {
      QuoteValue(s[1..]);
      UnitValue(s[0], QuotePieces(s[1..]));
      assert s == [s[0]] + s[1..];
    }
  }

  lemma UnitValue(u: Unit, others: seq<Piece>)
    requires ArePieces(others)
    ensures ArePieces([QuotePiece(u)] + others)
    ensures PiecesValue([QuotePiece(u)] + others) == [u] + PiecesValue(others)
  {
    QuotePieceValue(u);
    PiecesValueCons(QuotePiece(u), others);
  }

  lemma PairValue(high: Unit, low: Unit, others: seq<Piece>)
    requires IsHigh(high) && IsLow(low) && ArePieces(others)
    ensures
      var ps := [Raw(high)] + ([Raw(low)] + others);
      ArePieces(ps) && PiecesValue(ps) == [high] + ([low] + PiecesValue(others))
  {
    PiecesValueCons(Raw(low), others);
    PiecesValueCons(Raw(high), [Raw(low)] + others);
  }

  lemma PiecesValueCons(p: Piece, ps: seq<Piece>)
    ensures IsPiece(p) && ArePieces(ps) ==> ArePieces([p] + ps)
    ensures PiecesValue([p] + ps) == [PieceValue(p)] + PiecesValue(ps)
  {
    assert ([p] + ps)[1..] == ps;
  }

  /* Numbers: integers within 2^53 - 1 print in plain decimal. */

  function Decimal(n: nat): (s: Str)
    ensures s != []
  {
    if n < 10 then [0x30 + n] else Decimal(n / 10) + [0x30 + n % 10]
  }

  function PrintNumeral(n: int): Numeral {
    Numeral(n < 0, Decimal(if n < 0 then -n else n), [], NoExponent)
  }

  lemma {:induction false} DecimalValue(n: nat)
    ensures AllDigits(Decimal(n)) && DigitsValue(Decimal(n)) == n
    ensures Decimal(n)[0] == 0x30 ==> n == 0
  {
    if n >= 10 {
      DecimalValue(n / 10);
      assert Decimal(n)[..|Decimal(n)| - 1] == Decimal(n / 10);
    } else {
      assert DigitsValue([0x30 + n]) == DigitsValue([]) * 10 + n;
    }
  }

  lemma PrintNumeralValue(n: int)
    ensures IsNumeral(PrintNumeral(n)) && NumeralValue(PrintNumeral(n)) == n as real
  {
    DecimalValue(if n < 0 then -n else n);
    assert DigitsValue([]) == 0 && Power10(0) == 1;
  }

  /* Keys in order. */

  predicate IsLeast(k: Str, keys: set<Str>) {
    k in keys && forall o :: o in keys ==> Compare(k, o) <= 0
  }

  lemma {:induction false} LeastExists(keys: set<Str>)
    requires keys != {}
    ensures exists k :: IsLeast(k, keys)
  {
    var k :| k in keys;
    var others := keys - {k};
    CompareZero(k, k);
    assert forall o :: o in keys ==> o == k || o in others;
    if others == {} {
      assert IsLeast(k, keys);
    } else {
      LeastExists(others);
      var least :| IsLeast(least, others);
      CompareFlips(k, least);
      if Compare(least, k) <= 0 {
        forall o | o in keys ensures Compare(least, o) <= 0 {
          assert o == k || o in others;
        }
        assert IsLeast(least, keys);
      } else {
        forall o | o in keys ensures Compare(k, o) <= 0 {
          if o != k {
            assert o in others;
            CompareTransitive(k, least, o);
          }
        }
        assert IsLeast(k, keys);
      }
    }
  }

  lemma LeastUnique(a: Str, b: Str, keys: set<Str>)
    requires IsLeast(a, keys) && IsLeast(b, keys)
    ensures a == b
  {
    CompareFlips(a, b);
    CompareZero(a, b);
  }

  function Least(keys: set<Str>): (k: Str)
    requires keys != {}
    ensures IsLeast(k, keys)
  {
    LeastExists(keys);
    assert forall a, b :: IsLeast(a, keys) && IsLeast(b, keys) ==> a == b by {
      forall a, b | IsLeast(a, keys) && IsLeast(b, keys) ensures a == b {
        LeastUnique(a, b, keys);
      }
    }
    var k :| k in keys && IsLeast(k, keys);
    k
  }

  function SortedKeys(keys: set<Str>): (order: seq<Str>)
    ensures forall k :: k in order <==> k in keys
    ensures forall i, j :: 0 <= i < j < |order| ==> order[i] != order[j]
  {
    if keys == {} then [] else
      var k := Least(keys);
      [k] + SortedKeys(keys - {k})
  }

  /* The printer. */

  /** `n` is an integer for numbers that print. */
  function Canonical(v: Json): Str
    decreases v, 0
  {
    match v
    case Null => NULL_WORD
    case Bool(b) => if b then TRUE_WORD else FALSE_WORD
    case Number(n) => NumeralText(PrintNumeral(n.Floor))
    case Text(s) => Quote(s)
    case Array(items) => [OPEN_ARRAY] + CanonicalItems(items) + [CLOSE_ARRAY]
    case Object(fields) => [OPEN_OBJECT] + CanonicalFields(v, SortedKeys(fields.Keys)) + [CLOSE_OBJECT]
  }

  function CanonicalItems(items: seq<Json>): Str
    decreases items, 0
  {
    if items == [] then []
    else if |items| == 1 then Canonical(items[0])
    else Canonical(items[0]) + [COMMA] + CanonicalItems(items[1..])
  }

  function CanonicalFields(v: Json, keys: seq<Str>): Str
    requires v.Object? && forall k :: k in keys ==> k in v.fields
    decreases v, 0, |keys|
  {
    if keys == [] then []
    else
      var first := Quote(keys[0]) + [COLON] + Canonical(v.fields[keys[0]]);
      if |keys| == 1 then first else first + [COMMA] + CanonicalFields(v, keys[1..])
  }

  /** Safe integers and paired surrogates throughout. */
  predicate CanPrint(v: Json)
    decreases v
  {
    match v
    case Number(n) => n == n.Floor as real && Bounded(n)
    case Text(s) => WellFormed(s)
    case Array(items) => forall i :: 0 <= i < |items| ==> CanPrint(items[i])
    case Object(fields) => forall k :: k in fields ==> WellFormed(k) && CanPrint(fields[k])
    case _ => true
  }

  /** No value sits inside more than `depth` containers. */
  predicate Fits(v: Json, depth: int)
    decreases v
  {
    && depth >= 0
    && match v
       case Array(items) => forall i :: 0 <= i < |items| ==> Fits(items[i], depth - 1)
       case Object(fields) => forall k :: k in fields ==> Fits(fields[k], depth - 1)
       case _ => true
  }

  /* What is printed is a text of the grammar. */

  function PrintTree(v: Json): Tree
    decreases v, 0
  {
    match v
    case Null => NullTree
    case Bool(b) => if b then TrueTree else FalseTree
    case Number(n) => NumberTree(PrintNumeral(n.Floor))
    case Text(s) => TextTree(QuotePieces(s))
    case Array(items) => if items == [] then EmptyArray([]) else ArrayTree(PrintElements(items))
    case Object(fields) =>
      if fields == map[] then EmptyObject([]) else ObjectTree(PrintMembers(v, SortedKeys(fields.Keys)))
  }

  function PrintElements(items: seq<Json>): (es: seq<Element>)
    ensures |es| == |items|
    decreases items, 0
  {
    if items == [] then [] else [Element([], PrintTree(items[0]), [])] + PrintElements(items[1..])
  }

  function PrintMember(v: Json, k: Str): Member
    requires v.Object? && k in v.fields
    decreases v, 0, 0
  {
    Member([], QuotePieces(k), [], Element([], PrintTree(v.fields[k]), []))
  }

  function PrintMembers(v: Json, keys: seq<Str>): (ms: seq<Member>)
    requires v.Object? && forall k :: k in keys ==> k in v.fields
    ensures |ms| == |keys|
    decreases v, 0, |keys| + 1
  {
    if keys == [] then [] else [PrintMember(v, keys[0])] + PrintMembers(v, keys[1..])
  }

  lemma {:induction false} PrintText(v: Json)
    ensures TreeText(PrintTree(v)) == Canonical(v)
    decreases v, 0
  {
    if v.Array? {
      PrintItemsText(v.items);
      PrintArrayText(v);
    } else if v.Object? {
      PrintFieldsText(v, SortedKeys(v.fields.Keys));
      NoKeys(v.fields);
      PrintObjectText(v);
    } else {
      PrintScalarText(v);
    }
  }

  lemma PrintScalarText(v: Json)
    requires !v.Array? && !v.Object?
    ensures TreeText(PrintTree(v)) == Canonical(v)
  {
  }

  lemma PrintArrayText(v: Json)
    requires v.Array? && ElementsText(PrintElements(v.items)) == CanonicalItems(v.items)
    ensures TreeText(PrintTree(v)) == Canonical(v)
  {
  }

  lemma PrintObjectText(v: Json)
    requires v.Object? && (v.fields == map[] <==> SortedKeys(v.fields.Keys) == [])
    requires MembersText(PrintMembers(v, SortedKeys(v.fields.Keys))) == CanonicalFields(v, SortedKeys(v.fields.Keys))
    ensures TreeText(PrintTree(v)) == Canonical(v)
  {
    var keys := SortedKeys(v.fields.Keys);
    PrintTreeObject(v);
    CanonicalObject(v);
    if v.fields == map[] {
      EmptyObjectText(v, keys);
    } else {
      ObjectText(PrintMembers(v, keys));
    }
  }

  lemma CanonicalObject(v: Json)
    requires v.Object?
    ensures Canonical(v) == [OPEN_OBJECT] + CanonicalFields(v, SortedKeys(v.fields.Keys)) + [CLOSE_OBJECT]
  {
  }

  lemma EmptyObjectText(v: Json, keys: seq<Str>)
    requires v.Object? && keys == []
    ensures TreeText(EmptyObject([])) == [OPEN_OBJECT] + CanonicalFields(v, keys) + [CLOSE_OBJECT]
  {
  }

  lemma PrintTreeObject(v: Json)
    requires v.Object?
    ensures PrintTree(v) ==
      if v.fields == map[] then EmptyObject([]) else ObjectTree(PrintMembers(v, SortedKeys(v.fields.Keys)))
  {
  }

  lemma ObjectText(ms: seq<Member>)
    ensures TreeText(ObjectTree(ms)) == [OPEN_OBJECT] + MembersText(ms) + [CLOSE_OBJECT]
  {
  }

  lemma NoKeys(fields: map<Str, Json>)
    ensures fields == map[] <==> SortedKeys(fields.Keys) == []
  {
    if fields.Keys == {} {
      assert fields == map[];
    } else {
      assert Least(fields.Keys) in SortedKeys(fields.Keys);
    }
  }

  lemma {:induction false} PrintItemsText(items: seq<Json>)
    ensures ElementsText(PrintElements(items)) == CanonicalItems(items)
    decreases items, 0
  {
    if items != [] {
      PrintText(items[0]);
      PrintItemsText(items[1..]);
      var e := Element([], PrintTree(items[0]), []);
      assert ElementText(e) == Canonical(items[0]);
      ElementsCons(e, PrintElements(items[1..]));
    }
  }

  lemma {:induction false} PrintFieldsText(v: Json, keys: seq<Str>)
    requires v.Object? && forall k :: k in keys ==> k in v.fields
    ensures MembersText(PrintMembers(v, keys)) == CanonicalFields(v, keys)
    decreases v, 0, |keys|
  {
    if keys != [] {
      PrintText(v.fields[keys[0]]);
      PrintFieldsText(v, keys[1..]);
      var m := PrintMember(v, keys[0]);
      assert MemberText(m) == Quote(keys[0]) + [COLON] + Canonical(v.fields[keys[0]]);
      assert PrintMembers(v, keys)[1..] == PrintMembers(v, keys[1..]);
    }
  }

  /* That text denotes the value printed. */

  lemma {:induction false} PrintSound(v: Json, depth: int)
    requires CanPrint(v) && Fits(v, depth)
    ensures IsTree(PrintTree(v)) && Strict(PrintTree(v)) && TreeDepth(PrintTree(v)) <= depth
    ensures TreeValue(PrintTree(v)) == v
    decreases v, 2
  {
    if v.Array? {
      if v.items != [] {
        PrintElementsSound(v.items, depth - 1);
      }
    } else if v.Object? {
      PrintObjectSound(v, depth);
    } else if v.Number? {
      PrintNumeralValue(v.n.Floor);
    } else if v.Text? {
      QuoteValue(v.s);
    }
  }

  lemma {:induction false} PrintElementsSound(items: seq<Json>, depth: int)
    requires items != [] && forall i :: 0 <= i < |items| ==> CanPrint(items[i]) && Fits(items[i], depth)
    ensures StrictElements(PrintElements(items)) && ElementsDepth(PrintElements(items)) <= depth
    ensures ElementsValue(PrintElements(items)) == items
    decreases items, 0
  {
    PrintSound(items[0], depth);
    var e, others := Element([], PrintTree(items[0]), []), PrintElements(items[1..]);
    if |items| > 1 {
      PrintElementsSound(items[1..], depth);
    } else {
      assert items[1..] == [] && others == [];
    }
    assert PrintElements(items) == [e] + others && items == [items[0]] + items[1..];
    ElementsCons(e, others);
  }

  lemma {:induction false} PrintObjectSound(v: Json, depth: int)
    requires v.Object? && CanPrint(v) && Fits(v, depth)
    ensures IsTree(PrintTree(v)) && Strict(PrintTree(v)) && TreeDepth(PrintTree(v)) <= depth
    ensures TreeValue(PrintTree(v)) == v
    decreases v, 1
  {
    if v.fields != map[] {
      var keys := SortedKeys(v.fields.Keys);
      NoKeys(v.fields);
      AllPrintable(v, keys, depth);
      PrintMembersSound(v, keys, depth - 1, map[]);
      RestrictAll(v.fields, keys);
      MembersTree(PrintMembers(v, keys), depth - 1);
    }
  }

  lemma AllPrintable(v: Json, keys: seq<Str>, depth: int)
    requires v.Object? && CanPrint(v) && Fits(v, depth) && keys == SortedKeys(v.fields.Keys)
    ensures Printable(v, keys, depth - 1)
  {
  }

  lemma RestrictAll(fields: map<Str, Json>, keys: seq<Str>)
    requires forall k :: k in keys <==> k in fields
    ensures map[] + Restrict(fields, keys) == fields
  {
  }

  lemma MembersTree(ms: seq<Member>, depth: int)
    requires ms != [] && StrictMembers(ms) && DistinctKeys(ms) && MembersDepth(ms) <= depth
    ensures IsTree(ObjectTree(ms)) && Strict(ObjectTree(ms)) && TreeDepth(ObjectTree(ms)) <= depth + 1
    ensures TreeValue(ObjectTree(ms)) == Object(MembersValue(ms, map[]))
  {
  }

  /** The fields named by `keys` can be printed within `depth`. */
  ghost predicate Printable(v: Json, keys: seq<Str>, depth: int)
    requires v.Object?
  {
    && (forall k :: k in keys ==> k in v.fields && WellFormed(k) && CanPrint(v.fields[k]) && Fits(v.fields[k], depth))
    && (forall i, j :: 0 <= i < j < |keys| ==> keys[i] != keys[j])
  }

  function Restrict(fields: map<Str, Json>, keys: seq<Str>): map<Str, Json> {
    map k | k in keys && k in fields :: fields[k]
  }

  lemma RestrictCons(fields: map<Str, Json>, keys: seq<Str>, acc: map<Str, Json>)
    requires keys != [] && keys[0] in fields && keys[0] !in keys[1..]
    ensures acc[keys[0] := fields[keys[0]]] + Restrict(fields, keys[1..]) == acc + Restrict(fields, keys)
  {
    assert forall k :: k in keys <==> k == keys[0] || k in keys[1..];
  }

  lemma {:induction false} PrintMembersSound(v: Json, keys: seq<Str>, depth: int, acc: map<Str, Json>)
    requires v.Object? && Printable(v, keys, depth)
    ensures
      var ms := PrintMembers(v, keys);
      StrictMembers(ms) && DistinctKeys(ms) && (keys != [] ==> MembersDepth(ms) <= depth)
    ensures forall i :: 0 <= i < |keys| ==> PiecesValue(PrintMembers(v, keys)[i].key) == keys[i]
    ensures MembersValue(PrintMembers(v, keys), acc) == acc + Restrict(v.fields, keys)
    decreases v, 0, |keys| + 1
  {
    if keys == [] {
      assert acc + Restrict(v.fields, keys) == acc;
    } else {
      var k := keys[0];
      var m := PrintMember(v, k);
      QuoteValue(k);
      PrintSound(v.fields[k], depth);
      PrintMembersSound(v, keys[1..], depth, acc[k := v.fields[k]]);
      PrintedCons(m, PrintMembers(v, keys[1..]), keys, acc, v.fields[k]);
      RestrictCons(v.fields, keys, acc);
    }
  }

  lemma PrintedCons(m: Member, ms: seq<Member>, keys: seq<Str>, acc: map<Str, Json>, item: Json)
    requires |keys| == 1 + |ms| && StrictMember(m) && StrictMembers(ms)
    requires forall i, j :: 0 <= i < j < |keys| ==> keys[i] != keys[j]
    requires PiecesValue(m.key) == keys[0] && TreeValue(m.element.tree) == item
    requires forall i :: 0 <= i < |ms| ==> PiecesValue(ms[i].key) == keys[1..][i]
    ensures StrictMembers([m] + ms) && DistinctKeys([m] + ms)
    ensures forall i :: 0 <= i < |keys| ==> PiecesValue(([m] + ms)[i].key) == keys[i]
    ensures MembersDepth([m] + ms) == Max(TreeDepth(m.element.tree), MembersDepth(ms))
    ensures MembersValue([m] + ms, acc) == MembersValue(ms, acc[keys[0] := item])
  {
    assert ([m] + ms)[1..] == ms;
    forall i | 0 <= i < |keys| ensures PiecesValue(([m] + ms)[i].key) == keys[i] {
      if i > 0 {
        assert ([m] + ms)[i] == ms[i - 1] && keys[i] == keys[1..][i - 1];
      }
    }
  }

  /* A text of bounded depth denotes a value of bounded depth. */

  lemma {:induction false} DepthFits(t: Tree, depth: int)
    requires TreeDepth(t) <= depth
    ensures Fits(TreeValue(t), depth)
    decreases t, 0
  {
    if t.ArrayTree? {
      ElementsFit(t.elements, depth - 1);
    } else if t.ObjectTree? {
      MembersFit(t.members, depth - 1, map[]);
    }
  }

  lemma {:induction false} ElementsFit(es: seq<Element>, depth: int)
    requires ElementsDepth(es) <= depth
    ensures forall i :: 0 <= i < |es| ==> Fits(ElementsValue(es)[i], depth)
    decreases es, 0
  {
    if es != [] {
      DepthFits(es[0].tree, depth);
      ElementsFit(es[1..], depth);
    }
  }

  lemma {:induction false} MembersFit(ms: seq<Member>, depth: int, fields: map<Str, Json>)
    requires MembersDepth(ms) <= depth
    requires forall k :: k in fields ==> Fits(fields[k], depth)
    ensures forall k :: k in MembersValue(ms, fields) ==> Fits(MembersValue(ms, fields)[k], depth)
    decreases ms, 0
  {
    if ms != [] {
      DepthFits(ms[0].element.tree, depth);
      MembersFit(ms[1..], depth, fields[PiecesValue(ms[0].key) := TreeValue(ms[0].element.tree)]);
    }
  }

  /* The theorems. */

  /** Printing is undone by parsing, exactly when the printed text is within the parser's limits. */
  lemma PrintParses(v: Json, maxBytes: int, maxDepth: int)
    requires CanPrint(v)
    ensures Decode(Canonical(v), maxBytes, maxDepth) == Some(v)
      <==> Fits(v, maxDepth) && Utf8Length(Canonical(v)) <= maxBytes
  {
    var raw := Canonical(v);
    PrintText(v);
    if Fits(v, maxDepth) {
      PrintSound(v, maxDepth);
      assert raw == [] + TreeText(PrintTree(v)) + [];
      assert Spells(raw, maxDepth, [], PrintTree(v), []);
    }
    DecodeIff(raw, maxBytes, maxDepth, v);
    if Decode(raw, maxBytes, maxDepth) == Some(v) {
      var before, t, after :| Spells(raw, maxDepth, before, t, after) && TreeValue(t) == v;
      DepthFits(t, maxDepth);
    }
  }

  /** A looser depth limit admits no less. */
  lemma {:induction false} FitsMore(v: Json, depth: int, more: int)
    requires Fits(v, depth) && depth <= more
    ensures Fits(v, more)
    decreases v
  {
    if v.Array? {
      forall i | 0 <= i < |v.items| ensures Fits(v.items[i], more - 1) {
        FitsMore(v.items[i], depth - 1, more - 1);
      }
    } else if v.Object? {
      forall k | k in v.fields ensures Fits(v.fields[k], more - 1) {
        FitsMore(v.fields[k], depth - 1, more - 1);
      }
    }
  }

  /** Values that print alike are equal: a canonical text stands for its value. */
  lemma CanonicalInjective(v: Json, w: Json, depth: int)
    requires CanPrint(v) && CanPrint(w) && Fits(v, depth) && Fits(w, depth)
    ensures Canonical(v) == Canonical(w) <==> v == w
  {
    PrintParses(v, Utf8Length(Canonical(v)), depth);
    PrintParses(w, Utf8Length(Canonical(w)), depth);
  }
}
