/**
 * The shortest spelling of an ASCII value: its canonical text is as long as its
 * weight, and every text of the grammar that denotes it is at least as long.
 */
module Weights {
  import opened Strings
  import opened Json
  import opened Canonical
  import opened Orders

  predicate AllAscii(s: Str) {
    forall i :: 0 <= i < |s| ==> s[i] < 0x80
  }

  /** No numbers, and only ASCII in keys and strings. */
  predicate AsciiJson(v: Json)
    decreases v
  {
    match v
    case Number(_) => false
    case Text(s) => AllAscii(s)
    case Array(items) => forall i :: 0 <= i < |items| ==> AsciiJson(items[i])
    case Object(fields) => forall k :: k in fields ==> AllAscii(k) && AsciiJson(fields[k])
    case _ => true
  }

  /* Weights. */

  function UnitWeight(u: Unit): nat {
    |PieceText(QuotePiece(u))|
  }

  function TextWeight(s: Str): nat {
    if s == [] then 2 else UnitWeight(s[0]) + TextWeight(s[1..])
  }

  function Weight(v: Json): nat
    decreases v, 0
  {
    match v
    case Null => 4
    case Bool(b) => if b then 4 else 5
    case Number(_) => 0
    case Text(s) => TextWeight(s)
    case Array(items) => if items == [] then 2 else 1 + ItemsWeight(items)
    case Object(fields) => if fields == map[] then 2 else 1 + FieldsWeight(v, SortedKeys(fields.Keys))
  }

  /** Each item with the comma or bracket after it. */
  function ItemsWeight(items: seq<Json>): nat
    decreases items, 0
  {
    if items == [] then 0 else Weight(items[0]) + 1 + ItemsWeight(items[1..])
  }

  function FieldsWeight(v: Json, keys: seq<Str>): nat
    requires v.Object? && forall k :: k in keys ==> k in v.fields
    decreases v, 0, |keys|
  {
    if keys == [] then 0
    else TextWeight(keys[0]) + 1 + Weight(v.fields[keys[0]]) + 1 + FieldsWeight(v, keys[1..])
  }

  /* The canonical text has this weight, and is ASCII. */

  lemma {:induction false} QuoteWeight(s: Str)
    requires AllAscii(s)
    ensures |Quote(s)| == TextWeight(s) && AllAscii(Quote(s))
  {
    if s != [] {
      QuoteWeight(s[1..]);
      QuoteAscii(s[0]);
      var rest := QuotePieces(s[1..]);
      assert QuotePieces(s) == [QuotePiece(s[0])] + rest;
      assert PiecesText(QuotePieces(s)) == PieceText(QuotePiece(s[0])) + PiecesText(rest);
      assert forall i :: 0 <= i < |PiecesText(rest)| ==> Quote(s[1..])[i + 1] == PiecesText(rest)[i];
    }
  }

  lemma QuoteAscii(u: Unit)
    requires u < 0x80
    ensures AllAscii(PieceText(QuotePiece(u)))
  {
  }

  lemma AsciiJoin(a: Str, b: Str)
    requires AllAscii(a) && AllAscii(b)
    ensures AllAscii(a + b)
  {
  }

  lemma {:induction false} CanonicalWeight(v: Json)
    requires AsciiJson(v)
    ensures |Canonical.Canonical(v)| == Weight(v) && AllAscii(Canonical.Canonical(v))
    decreases v, 0
  {
    match v
    case Text(s) => QuoteWeight(s);
    case Array(items) =>
      ItemsWeigh(items);
      Enclosed(OPEN_ARRAY, CanonicalItems(items), CLOSE_ARRAY);
    case Object(fields) =>
      var keys := SortedKeys(fields.Keys);
      assert fields == map[] <==> keys == [] by {
        NoKeys(fields);
      }
      FieldsWeigh(v, keys);
      Enclosed(OPEN_OBJECT, CanonicalFields(v, keys), CLOSE_OBJECT);
    case _ =>
  }

  lemma Enclosed(open: Unit, s: Str, close: Unit)
    requires AllAscii(s) && open < 0x80 && close < 0x80
    ensures |[open] + s + [close]| == |s| + 2 && AllAscii([open] + s + [close])
  {
  }

  lemma {:induction false} ItemsWeigh(items: seq<Json>)
    requires forall i :: 0 <= i < |items| ==> AsciiJson(items[i])
    ensures |CanonicalItems(items)| + (if items == [] then 0 else 1) == ItemsWeight(items)
    ensures AllAscii(CanonicalItems(items))
    decreases items, 0
  {
    if items != [] {
      CanonicalWeight(items[0]);
      ItemsWeigh(items[1..]);
      AsciiJoin(Canonical.Canonical(items[0]) + [COMMA], CanonicalItems(items[1..]));
    }
  }

  lemma {:induction false} FieldsWeigh(v: Json, keys: seq<Str>)
    requires v.Object? && AsciiJson(v) && forall k :: k in keys ==> k in v.fields
    ensures |CanonicalFields(v, keys)| + (if keys == [] then 0 else 1) == FieldsWeight(v, keys)
    ensures AllAscii(CanonicalFields(v, keys))
    decreases v, 0, |keys|
  {
    if keys != [] {
      QuoteWeight(keys[0]);
      CanonicalWeight(v.fields[keys[0]]);
      FieldsWeigh(v, keys[1..]);
      var first := Quote(keys[0]) + [COLON] + Canonical.Canonical(v.fields[keys[0]]);
      AsciiJoin(Quote(keys[0]) + [COLON], Canonical.Canonical(v.fields[keys[0]]));
      AsciiJoin(first + [COMMA], CanonicalFields(v, keys[1..]));
    }
  }

  lemma {:induction false} AsciiBytes(s: Str)
    requires AllAscii(s)
    ensures Utf8Length(s) == |s|
  {
    if s != [] {
      AsciiBytes(s[1..]);
    }
  }

  /* No text that denotes the value is shorter. */

  lemma PieceHeavy(p: Piece)
    requires IsPiece(p) && PieceValue(p) < 0x80
    ensures |PieceText(p)| >= UnitWeight(PieceValue(p))
  {
    if p.Short? {
      assert PieceValue(p) in {0x22, 0x5C, 0x2F, 0x08, 0x0C, 0x0A, 0x0D, 0x09};
    }
  }

  lemma {:induction false} KeyHeavy(ps: seq<Piece>)
    requires ArePieces(ps) && AllAscii(PiecesValue(ps))
    ensures |KeyText(ps)| >= TextWeight(PiecesValue(ps))
  {
    if ps != [] {
      assert PiecesValue(ps)[0] == PieceValue(ps[0]) && PiecesValue(ps)[1..] == PiecesValue(ps[1..]);
      PieceHeavy(ps[0]);
      KeyHeavy(ps[1..]);
    }
  }

  lemma {:induction false} TreeHeavy(t: Tree)
    requires IsTree(t) && Strict(t) && AsciiJson(TreeValue(t))
    ensures |TreeText(t)| >= Weight(TreeValue(t))
    decreases t, 0
  {
    match t
    case TextTree(ps) => KeyHeavy(ps);
    case ArrayTree(es) => ElementsHeavy(es);
    case ObjectTree(ms) =>
      var v := TreeValue(t);
      MembersFields(ms, map[]);
      KeysDistinct(ms);
      MembersHeavy(ms, v);
      FieldsReordered(v, KeysOf(ms), SortedKeys(v.fields.Keys));
      assert PiecesValue(ms[0].key) in v.fields;
    case _ =>
  }

  lemma {:induction false} ElementsHeavy(es: seq<Element>)
    requires es != [] && forall i :: 0 <= i < |es| ==> IsElement(es[i]) && Strict(es[i].tree)
    requires forall i :: 0 <= i < |es| ==> AsciiJson(ElementsValue(es)[i])
    ensures |ElementsText(es)| + 1 >= ItemsWeight(ElementsValue(es))
    decreases es, 0
  {
    var items := ElementsValue(es);
    assert items[0] == TreeValue(es[0].tree) && items[1..] == ElementsValue(es[1..]);
    TreeHeavy(es[0].tree);
    if |es| > 1 {
      assert forall i :: 0 <= i < |es| - 1 ==> ElementsValue(es[1..])[i] == items[i + 1];
      ElementsHeavy(es[1..]);
    }
  }

  function KeysOf(ms: seq<Member>): (keys: seq<Str>)
    ensures |keys| == |ms| && forall i :: 0 <= i < |ms| ==> keys[i] == PiecesValue(ms[i].key)
  {
    if ms == [] then [] else [PiecesValue(ms[0].key)] + KeysOf(ms[1..])
  }

  ghost predicate Distinct(keys: seq<Str>) {
    forall i, j :: 0 <= i < j < |keys| ==> keys[i] != keys[j]
  }

  lemma KeysDistinct(ms: seq<Member>)
    requires DistinctKeys(ms)
    ensures Distinct(KeysOf(ms))
  {
  }

  /** What is known of the fields after the members were added to `fields` in turn. */
  lemma {:induction false} MembersFields(ms: seq<Member>, fields: map<Str, Json>)
    requires DistinctKeys(ms)
    ensures
      var r := MembersValue(ms, fields);
      && (forall k :: k in r <==> k in fields || k in KeysOf(ms))
      && (forall k :: k in fields && k !in KeysOf(ms) ==> r[k] == fields[k])
      && (forall i :: 0 <= i < |ms| ==>
            PiecesValue(ms[i].key) in r && r[PiecesValue(ms[i].key)] == TreeValue(ms[i].element.tree))
  {
    if ms != [] {
      var k := PiecesValue(ms[0].key);
      var next := fields[k := TreeValue(ms[0].element.tree)];
      assert KeysOf(ms) == [k] + KeysOf(ms[1..]);
      assert k !in KeysOf(ms[1..]);
      MembersFields(ms[1..], next);
      var r := MembersValue(ms, fields);
      forall i | 0 <= i < |ms|
        ensures PiecesValue(ms[i].key) in r && r[PiecesValue(ms[i].key)] == TreeValue(ms[i].element.tree)
      {
        if i > 0 {
          assert ms[i] == ms[1..][i - 1];
        }
      }
    }
  }

  /** The members denote fields of `v`. */
  predicate Denotes(ms: seq<Member>, v: Json) {
    v.Object? && forall i :: 0 <= i < |ms| ==>
      PiecesValue(ms[i].key) in v.fields && v.fields[PiecesValue(ms[i].key)] == TreeValue(ms[i].element.tree)
  }

  lemma {:induction false} MembersHeavy(ms: seq<Member>, v: Json)
    requires ms != [] && Denotes(ms, v) && AsciiJson(v)
    requires forall i :: 0 <= i < |ms| ==> IsMember(ms[i]) && Strict(ms[i].element.tree)
    ensures forall k :: k in KeysOf(ms) ==> k in v.fields
    ensures |MembersText(ms)| + 1 >= FieldsWeight(v, KeysOf(ms))
    decreases ms, 0
  {
    var keys := KeysOf(ms);
    assert keys[0] == PiecesValue(ms[0].key) && keys[1..] == KeysOf(ms[1..]);
    MemberHeavy(ms[0], v.fields[keys[0]]);
    if |ms| > 1 {
      MembersHeavy(ms[1..], v);
      assert |MembersText(ms)| == |MemberText(ms[0])| + 1 + |MembersText(ms[1..])|;
    } else {
      assert MembersText(ms) == MemberText(ms[0]);
    }
  }

  lemma MemberHeavy(m: Member, item: Json)
    requires IsMember(m) && Strict(m.element.tree) && AllAscii(PiecesValue(m.key))
    requires TreeValue(m.element.tree) == item && AsciiJson(item)
    ensures |MemberText(m)| >= TextWeight(PiecesValue(m.key)) + 1 + Weight(item)
    decreases m, 0
  {
    KeyHeavy(m.key);
    TreeHeavy(m.element.tree);
    assert |MemberText(m)| == |m.before| + |KeyText(m.key)| + |m.middle| + 1 + |ElementText(m.element)|;
    assert |ElementText(m.element)| == |m.element.before| + |TreeText(m.element.tree)| + |m.element.after|;
  }

  /* Keys may be weighed in any order. */

  lemma {:induction false} FieldsJoin(v: Json, a: seq<Str>, b: seq<Str>)
    requires v.Object? && forall k :: k in a + b ==> k in v.fields
    ensures forall k :: k in a || k in b ==> k in v.fields
    ensures FieldsWeight(v, a + b) == FieldsWeight(v, a) + FieldsWeight(v, b)
    decreases |a|
  {
    assert forall k :: k in a || k in b ==> k in a + b;
    if a == [] {
      assert a + b == b;
    } else {
      assert (a + b)[1..] == a[1..] + b;
      FieldsJoin(v, a[1..], b);
    }
  }

  /** The key at `j` weighed first. */
  lemma FieldsPulled(v: Json, b: seq<Str>, j: nat)
    requires v.Object? && j < |b| && forall k :: k in b ==> k in v.fields
    ensures forall k :: k in b[..j] + b[j + 1..] ==> k in v.fields
    ensures FieldsWeight(v, b) ==
      TextWeight(b[j]) + 1 + Weight(v.fields[b[j]]) + 1 + FieldsWeight(v, b[..j] + b[j + 1..])
  {
    assert b == b[..j] + b[j..];
    FieldsJoin(v, b[..j], b[j..]);
    assert b[j..][0] == b[j] && b[j..][1..] == b[j + 1..];
    FieldsJoin(v, b[..j], b[j + 1..]);
  }

  lemma HasKey(b: seq<Str>)
    requires b != []
    ensures exists k :: k in b
  {
    assert b[0] in b;
  }

  lemma {:induction false} FieldsReordered(v: Json, a: seq<Str>, b: seq<Str>)
    requires v.Object? && Distinct(a) && Distinct(b)
    requires (forall k :: k in a ==> k in v.fields) && forall k :: k in a <==> k in b
    ensures FieldsWeight(v, a) == FieldsWeight(v, b)
    decreases |a|
  {
    if a == [] {
      if b != [] {
        HasKey(b);
      }
    } else {
      assert a[0] in b;
      var j: nat :| j < |b| && b[j] == a[0];
      Dropped(a, b, j);
      FieldsReordered(v, a[1..], b[..j] + b[j + 1..]);
      FieldsPulled(v, b, j);
    }
  }

  lemma Dropped(a: seq<Str>, b: seq<Str>, j: nat)
    requires Distinct(a) && Distinct(b) && (forall k :: k in a <==> k in b)
    requires a != [] && j < |b| && b[j] == a[0]
    ensures
      var rest := b[..j] + b[j + 1..];
      Distinct(rest) && forall k :: k in a[1..] <==> k in rest
  {
    var rest := b[..j] + b[j + 1..];
    assert forall i :: 0 <= i < |rest| ==> rest[i] == b[if i < j then i else i + 1];
    forall k ensures k in a[1..] <==> k in rest {
      if k in a[1..] {
        assert k in b && k != a[0];
        var i :| 0 <= i < |b| && b[i] == k;
        assert rest[if i < j then i else i - 1] == k;
      }
      if k in rest {
        var i :| 0 <= i < |rest| && rest[i] == k;
        assert k in a && k != a[0];
      }
    }
  }

  /* Items may be weighed in any order, and replaced by equally heavy ones. */

  lemma {:induction false} ItemsJoin(a: seq<Json>, b: seq<Json>)
    ensures ItemsWeight(a + b) == ItemsWeight(a) + ItemsWeight(b)
  {
    if a == [] {
      assert a + b == b;
    } else {
      assert (a + b)[1..] == a[1..] + b;
      ItemsJoin(a[1..], b);
    }
  }

  lemma ItemsPulled(b: seq<Json>, j: nat)
    requires j < |b|
    ensures ItemsWeight(b) == Weight(b[j]) + 1 + ItemsWeight(b[..j] + b[j + 1..])
  {
    assert b == b[..j] + b[j..];
    ItemsJoin(b[..j], b[j..]);
    assert b[j..][0] == b[j] && b[j..][1..] == b[j + 1..];
    ItemsJoin(b[..j], b[j + 1..]);
  }

  lemma {:induction false} ItemsReordered(a: seq<Json>, b: seq<Json>)
    requires multiset(a) == multiset(b)
    ensures ItemsWeight(a) == ItemsWeight(b)
  {
    assert |multiset(a)| == |a| && |multiset(b)| == |b|;
    if a != [] {
      assert a[0] in multiset(b);
      var j: nat :| j < |b| && b[j] == a[0];
      TakenOut(a, b, j);
      ItemsReordered(a[1..], b[..j] + b[j + 1..]);
      ItemsPulled(b, j);
    }
  }

  /** The first of `a` is at `j` in `b`: the lists are permutations exactly when the rests are. */
  lemma TakenOut<T>(a: seq<T>, b: seq<T>, j: nat)
    requires a != [] && j < |b| && b[j] == a[0]
    ensures multiset(a) == multiset(b) <==> multiset(a[1..]) == multiset(b[..j] + b[j + 1..])
  {
    TailMultiset(a);
    Pulled(b, j);
    assert a[0] in multiset(a) && multiset(a) == multiset{a[0]} + multiset(a[1..]);
    assert multiset(b) == multiset{a[0]} + multiset(b[..j] + b[j + 1..]);
  }

  lemma {:induction false} ItemsSame(a: seq<Json>, b: seq<Json>)
    requires |a| == |b| && forall i :: 0 <= i < |a| ==> Weight(a[i]) == Weight(b[i])
    ensures ItemsWeight(a) == ItemsWeight(b)
  {
    if a != [] {
      ItemsSame(a[1..], b[1..]);
    }
  }

  /** Both objects have the same keys, and each of them the same weight in both. */
  predicate EquallyHeavy(v: Json, w: Json) {
    && v.Object? && w.Object? && v.fields.Keys == w.fields.Keys
    && forall k :: k in v.fields ==> Weight(v.fields[k]) == Weight(w.fields[k])
  }

  lemma {:induction false} FieldsSame(v: Json, w: Json, keys: seq<Str>)
    requires EquallyHeavy(v, w) && forall k :: k in keys ==> k in v.fields
    ensures FieldsWeight(v, keys) == FieldsWeight(w, keys)
  {
    if keys != [] {
      FieldsSame(v, w, keys[1..]);
    }
  }

  lemma ObjectSame(v: Json, w: Json)
    requires EquallyHeavy(v, w)
    ensures Weight(v) == Weight(w)
  {
    var keys := SortedKeys(v.fields.Keys);
    NoKeys(v.fields);
    NoKeys(w.fields);
    FieldsSame(v, w, keys);
    assert keys == SortedKeys(w.fields.Keys);
    assert Weight(v) == if keys == [] then 2 else 1 + FieldsWeight(v, keys);
    assert Weight(w) == if keys == [] then 2 else 1 + FieldsWeight(w, keys);
  }
}
