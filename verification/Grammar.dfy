/**
 * What `strictJson` computes, as functions on the unread text, and the proof that
 * this is exactly the grammar of RFC 8259 with the strictness demands added.
 */
module Grammar {
  import opened Strings
  import opened Results
  import opened Json
  import opened Lexer

  datatype Parsed = Parsed(value: Json, rest: Str)

  function ParseValue(s: Str, depth: int, maxDepth: int): (r: Option<Parsed>)
    ensures r.Some? ==> |r.value.rest| < |s|
    decreases |s|, 0
  {
    if depth > maxDepth then None
    else
      var t := SkipSpace(s);
      if t == [] then None
      else if t[0] == QUOTE then
        var text := TakeText(t);
        if text.None? then None else Some(Parsed(Text(text.value.text), text.value.rest))
      else if t[0] == OPEN_ARRAY then
        var u := SkipSpace(t[1..]);
        if u != [] && u[0] == CLOSE_ARRAY then Some(Parsed(Array([]), u[1..]))
        else ParseElements(t[1..], depth, maxDepth, [])
      else if t[0] == OPEN_OBJECT then
        var u := SkipSpace(t[1..]);
        if u != [] && u[0] == CLOSE_OBJECT then Some(Parsed(Object(map[]), u[1..]))
        else ParseMembers(t[1..], depth, maxDepth, map[])
      else ParseLiteral(t)
  }

  function ParseLiteral(s: Str): (r: Option<Parsed>)
    ensures r.Some? ==> |r.value.rest| < |s|
  {
    var literal := TakeLiteral(s);
    if literal.None? then None
    else
      TakeLiteralSound(s);
      var t := literal.value;
      if t.NumberTree? && !Bounded(NumeralValue(t.numeral)) then None
      else Some(Parsed(TreeValue(t), s[|TreeText(t)|..]))
  }

  /** The rest of an array whose first `items` are read; `s` starts at the next one. */
  function ParseElements(s: Str, depth: int, maxDepth: int, items: seq<Json>): (r: Option<Parsed>)
    ensures r.Some? ==> |r.value.rest| < |s|
    decreases |s|, 1
  {
    var item := ParseValue(s, depth + 1, maxDepth);
    if item.None? then None
    else
      var t := SkipSpace(item.value.rest);
      if t == [] then None
      else if t[0] == CLOSE_ARRAY then Some(Parsed(Array(items + [item.value.value]), t[1..]))
      else if t[0] != COMMA then None
      else ParseElements(t[1..], depth, maxDepth, items + [item.value.value])
  }

  /** The object so far, and the text after the white space that follows its last member. */
  datatype Gathered = Gathered(fields: map<Str, Json>, rest: Str)

  /** One member, whose key must be new to `fields`. */
  function ParseMember(s: Str, depth: int, maxDepth: int, fields: map<Str, Json>): (r: Option<Gathered>)
    ensures r.Some? ==> |r.value.rest| < |s|
    decreases |s|, 1
  {
    var t := SkipSpace(s);
    if t == [] || t[0] != QUOTE then None
    else
      var key := TakeText(t);
      if key.None? then None
      else
        var u := SkipSpace(key.value.rest);
        if u == [] || u[0] != COLON || key.value.text in fields then None
        else
          var item := ParseValue(u[1..], depth + 1, maxDepth);
          if item.None? then None
          else Some(Gathered(fields[key.value.text := item.value.value], SkipSpace(item.value.rest)))
  }

  /** The rest of an object that already holds `fields`; `s` starts at the next key. */
  function ParseMembers(s: Str, depth: int, maxDepth: int, fields: map<Str, Json>): (r: Option<Parsed>)
    ensures r.Some? ==> |r.value.rest| < |s|
    decreases |s|, 2
  {
    var m := ParseMember(s, depth, maxDepth, fields);
    if m.None? || m.value.rest == [] then None
    else
      var w := m.value.rest;
      if w[0] == CLOSE_OBJECT then Some(Parsed(Object(m.value.fields), w[1..]))
      else if w[0] != COMMA then None
      else ParseMembers(w[1..], depth, maxDepth, m.value.fields)
  }

  function ParseText(raw: Str, maxDepth: int): Option<Json> {
    var r := ParseValue(raw, 0, maxDepth);
    if r.None? || SkipSpace(r.value.rest) != [] then None else Some(r.value.value)
  }

  /* What is read is in the grammar. */

  ghost predicate StrictElements(es: seq<Element>) {
    forall i :: 0 <= i < |es| ==> IsElement(es[i]) && Strict(es[i].tree)
  }

  ghost predicate StrictMembers(ms: seq<Member>) {
    forall i :: 0 <= i < |ms| ==> StrictMember(ms[i])
  }

  ghost predicate AbsentKeys(ms: seq<Member>, fields: map<Str, Json>) {
    forall i :: 0 <= i < |ms| ==> PiecesValue(ms[i].key) !in fields
  }

  lemma {:induction false} ValueSound(s: Str, depth: int, maxDepth: int) returns (before: Str, t: Tree)
    requires ParseValue(s, depth, maxDepth).Some?
    ensures AllSpace(before) && IsTree(t) && Strict(t) && depth + TreeDepth(t) <= maxDepth
    ensures s == before + TreeText(t) + ParseValue(s, depth, maxDepth).value.rest
    ensures TreeValue(t) == ParseValue(s, depth, maxDepth).value.value
    decreases |s|, 2
  {
    before := SkipSpaceSplits(s);
    var u := SkipSpace(s);
    var rest := ParseValue(s, depth, maxDepth).value.rest;
    t := TokenSound(u, depth, maxDepth, rest, s);
    Regroup(before, TreeText(t), rest);
  }

  /** The value that starts at the first unit that is not white space. */
  lemma {:induction false} TokenSound(u: Str, depth: int, maxDepth: int, rest: Str, s: Str) returns (t: Tree)
    requires u == SkipSpace(s) && ParseValue(s, depth, maxDepth).Some?
    requires rest == ParseValue(s, depth, maxDepth).value.rest
    ensures IsTree(t) && Strict(t) && depth + TreeDepth(t) <= maxDepth
    ensures u == TreeText(t) + rest
    ensures TreeValue(t) == ParseValue(s, depth, maxDepth).value.value
    decreases |u|, 1
  {
    if u[0] == QUOTE {
      var ps := TakeTextSound(u);
      t := TextTree(ps);
    } else if u[0] == OPEN_ARRAY {
      t := ArraySound(u, depth, maxDepth, rest);
    } else if u[0] == OPEN_OBJECT {
      t := ObjectSound(u, depth, maxDepth, rest);
    } else {
      TakeLiteralSound(u);
      t := TakeLiteral(u).value;
      assert u == TreeText(t) + u[|TreeText(t)|..];
    }
  }

  lemma {:induction false} ArraySound(u: Str, depth: int, maxDepth: int, rest: Str) returns (t: Tree)
    requires u != [] && u[0] == OPEN_ARRAY && depth <= maxDepth
    requires
      var w := SkipSpace(u[1..]);
      if w != [] && w[0] == CLOSE_ARRAY then rest == w[1..]
      else (ParseElements(u[1..], depth, maxDepth, []).Some?
        && ParseElements(u[1..], depth, maxDepth, []).value.rest == rest)
    ensures IsTree(t) && Strict(t) && depth + TreeDepth(t) <= maxDepth && u == TreeText(t) + rest
    ensures
      var w := SkipSpace(u[1..]);
      TreeValue(t) ==
        if w != [] && w[0] == CLOSE_ARRAY then Array([])
        else ParseElements(u[1..], depth, maxDepth, []).value.value
    decreases |u|, 0
  {
    var w := SkipSpace(u[1..]);
    if w != [] && w[0] == CLOSE_ARRAY {
      var gap := SkipSpaceSplits(u[1..]);
      t := EmptyArray(gap);
      Enclosed(OPEN_ARRAY, gap, CLOSE_ARRAY, u, rest);
    } else {
      var es := ElementsSound(u[1..], depth, maxDepth, []);
      t := ArrayTree(es);
      Enclosed(OPEN_ARRAY, ElementsText(es), CLOSE_ARRAY, u, rest);
      assert [] + ElementsValue(es) == ElementsValue(es);
    }
  }

  lemma {:induction false} ObjectSound(u: Str, depth: int, maxDepth: int, rest: Str) returns (t: Tree)
    requires u != [] && u[0] == OPEN_OBJECT && depth <= maxDepth
    requires
      var w := SkipSpace(u[1..]);
      if w != [] && w[0] == CLOSE_OBJECT then rest == w[1..]
      else (ParseMembers(u[1..], depth, maxDepth, map[]).Some?
        && ParseMembers(u[1..], depth, maxDepth, map[]).value.rest == rest)
    ensures IsTree(t) && Strict(t) && depth + TreeDepth(t) <= maxDepth && u == TreeText(t) + rest
    ensures
      var w := SkipSpace(u[1..]);
      TreeValue(t) ==
        if w != [] && w[0] == CLOSE_OBJECT then Object(map[])
        else ParseMembers(u[1..], depth, maxDepth, map[]).value.value
    decreases |u|, 0
  {
    var w := SkipSpace(u[1..]);
    if w != [] && w[0] == CLOSE_OBJECT {
      var gap := SkipSpaceSplits(u[1..]);
      t := EmptyObject(gap);
      Enclosed(OPEN_OBJECT, gap, CLOSE_OBJECT, u, rest);
    } else {
      var ms := MembersSound(u[1..], depth, maxDepth, map[]);
      t := ObjectTree(ms);
      Enclosed(OPEN_OBJECT, MembersText(ms), CLOSE_OBJECT, u, rest);
    }
  }

  lemma Enclosed(open: Unit, inside: Str, close: Unit, s: Str, rest: Str)
    requires s != [] && s[0] == open
    requires s[1..] == inside + ([close] + rest)
    ensures s == ([open] + inside + [close]) + rest
  {
    assert s == [open] + s[1..];
  }

  lemma {:induction false} ElementsSound(s: Str, depth: int, maxDepth: int, items: seq<Json>) returns (es: seq<Element>)
    requires ParseElements(s, depth, maxDepth, items).Some?
    ensures es != [] && StrictElements(es) && depth + 1 + ElementsDepth(es) <= maxDepth
    ensures s == ElementsText(es) + ([CLOSE_ARRAY] + ParseElements(s, depth, maxDepth, items).value.rest)
    ensures ParseElements(s, depth, maxDepth, items).value.value == Array(items + ElementsValue(es))
    decreases |s|, 4
  {
    var e, t := ElementSound(s, depth, maxDepth);
    var item := TreeValue(e.tree);
    assert t == [t[0]] + t[1..];
    if t[0] == CLOSE_ARRAY {
      es := [e];
      OneElement(e);
    } else {
      var others := ElementsSound(t[1..], depth, maxDepth, items + [item]);
      var rest := ParseElements(t[1..], depth, maxDepth, items + [item]).value.rest;
      es := [e] + others;
      ElementsCons(e, others);
      Reassociate2(ElementText(e), COMMA, ElementsText(others), [CLOSE_ARRAY] + rest);
      Append(items, item, ElementsValue(others));
    }
  }

  lemma OneElement(e: Element)
    requires IsElement(e) && Strict(e.tree)
    ensures StrictElements([e]) && ElementsText([e]) == ElementText(e)
    ensures ElementsValue([e]) == [TreeValue(e.tree)] && ElementsDepth([e]) == TreeDepth(e.tree)
  {
    assert [e][1..] == [];
  }

  lemma Append(items: seq<Json>, item: Json, more: seq<Json>)
    ensures (items + [item]) + more == items + ([item] + more)
  {
  }

  /** The first element read from `s`, and the text `t` after its trailing white space. */
  lemma {:induction false} ElementSound(s: Str, depth: int, maxDepth: int) returns (e: Element, t: Str)
    requires ParseValue(s, depth + 1, maxDepth).Some?
    ensures IsElement(e) && Strict(e.tree) && depth + 1 + TreeDepth(e.tree) <= maxDepth
    ensures s == ElementText(e) + t
    ensures t == SkipSpace(ParseValue(s, depth + 1, maxDepth).value.rest)
    ensures TreeValue(e.tree) == ParseValue(s, depth + 1, maxDepth).value.value
    decreases |s|, 3
  {
    var item := ParseValue(s, depth + 1, maxDepth).value;
    var before, tree := ValueSound(s, depth + 1, maxDepth);
    var after := SkipSpaceSplits(item.rest);
    t := SkipSpace(item.rest);
    e := Element(before, tree, after);
    assert s == ElementText(e) + t by { Regroup(before + TreeText(tree), after, t); }
  }

  lemma Reassociate2(a: Str, u: Unit, b: Str, c: Str)
    ensures a + ([u] + (b + c)) == (a + [u] + b) + c
  {
  }

  lemma ElementsCons(e: Element, es: seq<Element>)
    ensures es != [] ==> ElementsText([e] + es) == ElementText(e) + [COMMA] + ElementsText(es)
    ensures ElementsValue([e] + es) == [TreeValue(e.tree)] + ElementsValue(es)
    ensures ElementsDepth([e] + es) == Max(TreeDepth(e.tree), ElementsDepth(es))
    ensures StrictElements(es) && IsElement(e) && Strict(e.tree) ==> StrictElements([e] + es)
  {
    assert ([e] + es)[1..] == es;
  }

  lemma {:induction false} MembersSound(s: Str, depth: int, maxDepth: int, fields: map<Str, Json>)
    returns (ms: seq<Member>)
    requires ParseMembers(s, depth, maxDepth, fields).Some?
    ensures ms != [] && StrictMembers(ms) && depth + 1 + MembersDepth(ms) <= maxDepth
    ensures DistinctKeys(ms) && AbsentKeys(ms, fields)
    ensures s == MembersText(ms) + ([CLOSE_OBJECT] + ParseMembers(s, depth, maxDepth, fields).value.rest)
    ensures ParseMembers(s, depth, maxDepth, fields).value.value == Object(MembersValue(ms, fields))
    decreases |s|, 4
  {
    var m, w := MemberSound(s, depth, maxDepth, fields);
    var item := TreeValue(m.element.tree);
    var next := fields[PiecesValue(m.key) := item];
    assert w == [w[0]] + w[1..];
    if w[0] == CLOSE_OBJECT {
      ms := [m];
      OneMember(m, fields, item);
    } else {
      var others := MembersSound(w[1..], depth, maxDepth, next);
      var rest := ParseMembers(w[1..], depth, maxDepth, next).value.rest;
      ms := [m] + others;
      MembersCons(m, others, fields, item);
      Reassociate2(MemberText(m), COMMA, MembersText(others), [CLOSE_OBJECT] + rest);
    }
  }

  /** The first member read from `s`, and the text `w` after its trailing white space. */
  lemma {:induction false} MemberSound(s: Str, depth: int, maxDepth: int, fields: map<Str, Json>)
    returns (m: Member, w: Str)
    requires ParseMember(s, depth, maxDepth, fields).Some?
    ensures StrictMember(m)
    ensures depth + 1 + TreeDepth(m.element.tree) <= maxDepth && PiecesValue(m.key) !in fields
    ensures s == MemberText(m) + w
    ensures ParseMember(s, depth, maxDepth, fields)
         == Some(Gathered(fields[PiecesValue(m.key) := TreeValue(m.element.tree)], w))
    decreases |s|, 3
  {
    var before := SkipSpaceSplits(s);
    var t := SkipSpace(s);
    var key := TakeTextSound(t);
    var middle := SkipSpaceSplits(TakeText(t).value.rest);
    var u := SkipSpace(TakeText(t).value.rest);
    assert u == [COLON] + u[1..];
    var e;
    e, w := ElementSound(u[1..], depth, maxDepth);
    m := Member(before, key, middle, e);
    assert s == MemberText(m) + w by { MemberJoins(m, s, t, u, w); }
  }

  lemma MemberJoins(m: Member, s: Str, t: Str, u: Str, w: Str)
    requires s == m.before + t && t == KeyText(m.key) + (m.middle + u)
    requires u == [COLON] + (ElementText(m.element) + w)
    ensures s == MemberText(m) + w
  {
    Reassociate(m.before, KeyText(m.key), m.middle, u);
    Reassociate2(m.before + KeyText(m.key) + m.middle, COLON, ElementText(m.element), w);
  }

  ghost predicate StrictMember(m: Member) {
    IsMember(m) && WellFormed(PiecesValue(m.key)) && Strict(m.element.tree)
  }

  lemma MembersCons(m: Member, ms: seq<Member>, fields: map<Str, Json>, item: Json)
    requires item == TreeValue(m.element.tree)
    requires StrictMembers(ms) && StrictMember(m)
    requires DistinctKeys(ms) && AbsentKeys(ms, fields[PiecesValue(m.key) := item])
    requires PiecesValue(m.key) !in fields
    ensures ms != [] ==> MembersText([m] + ms) == MemberText(m) + [COMMA] + MembersText(ms)
    ensures MembersValue([m] + ms, fields) == MembersValue(ms, fields[PiecesValue(m.key) := item])
    ensures MembersDepth([m] + ms) == Max(TreeDepth(m.element.tree), MembersDepth(ms))
    ensures StrictMembers([m] + ms)
    ensures DistinctKeys([m] + ms) && AbsentKeys([m] + ms, fields)
  {
    assert ([m] + ms)[1..] == ms;
  }

  lemma OneMember(m: Member, fields: map<Str, Json>, item: Json)
    requires item == TreeValue(m.element.tree) && StrictMember(m) && PiecesValue(m.key) !in fields
    ensures MembersText([m]) == MemberText(m)
    ensures MembersValue([m], fields) == fields[PiecesValue(m.key) := item]
    ensures MembersDepth([m]) == TreeDepth(m.element.tree)
    ensures StrictMembers([m]) && DistinctKeys([m]) && AbsentKeys([m], fields)
  {
    assert [m][1..] == [];
  }

  /* What is in the grammar is read. */

  lemma {:induction false} ValueComplete(before: Str, t: Tree, rest: Str, depth: int, maxDepth: int)
    requires AllSpace(before) && IsTree(t) && Strict(t) && depth + TreeDepth(t) <= maxDepth
    requires Follows(rest)
    ensures ParseValue(before + TreeText(t) + rest, depth, maxDepth) == Some(Parsed(TreeValue(t), rest))
    decreases t, 1
  {
    var u := TreeText(t) + rest;
    Regroup(before, TreeText(t), rest);
    SkipSpaceSkips(before, u);
    TokenComplete(t, rest, depth, maxDepth, before + u);
  }

  lemma {:induction false} TokenComplete(t: Tree, rest: Str, depth: int, maxDepth: int, s: Str)
    requires IsTree(t) && Strict(t) && depth + TreeDepth(t) <= maxDepth && Follows(rest)
    requires SkipSpace(s) == SkipSpace(TreeText(t) + rest)
    ensures ParseValue(s, depth, maxDepth) == Some(Parsed(TreeValue(t), rest))
    decreases t, 0
  {
    if t.TextTree? {
      TakeTextComplete(t.pieces, rest);
    } else if t.EmptyArray? {
      EmptyComplete(OPEN_ARRAY, t.gap, CLOSE_ARRAY, rest);
    } else if t.EmptyObject? {
      EmptyComplete(OPEN_OBJECT, t.gap, CLOSE_OBJECT, rest);
    } else if t.ArrayTree? {
      ElementsComplete(t.elements, rest, depth, maxDepth, []);
      NoElementCloses(t.elements, rest, depth, maxDepth);
      Opened(OPEN_ARRAY, ElementsText(t.elements), CLOSE_ARRAY, rest);
      assert [] + ElementsValue(t.elements) == ElementsValue(t.elements);
    } else if t.ObjectTree? {
      MembersComplete(t.members, rest, depth, maxDepth, map[]);
      Opened(OPEN_OBJECT, MembersText(t.members), CLOSE_OBJECT, rest);
    } else {
      LiteralComplete(t, rest);
    }
  }

  lemma Opened(open: Unit, inside: Str, close: Unit, rest: Str)
    requires !IsSpace(open)
    ensures
      var s := ([open] + inside + [close]) + rest;
      SkipSpace(s) == s && s[0] == open && s[1..] == inside + ([close] + rest)
  {
  }

  lemma LiteralComplete(t: Tree, rest: Str)
    requires IsTree(t) && Strict(t) && IsLiteral(t) && Follows(rest)
    ensures
      var u := TreeText(t) + rest;
      u != [] && SkipSpace(u) == u && u[0] != QUOTE && u[0] != OPEN_ARRAY && u[0] != OPEN_OBJECT
    ensures ParseLiteral(TreeText(t) + rest) == Some(Parsed(TreeValue(t), rest))
  {
    TakeLiteralComplete(t, rest);
    SplitAt(TreeText(t), rest);
  }

  lemma EmptyComplete(open: Unit, gap: Str, close: Unit, rest: Str)
    requires AllSpace(gap) && !IsSpace(open) && !IsSpace(close)
    ensures
      var s := ([open] + gap + [close]) + rest;
      SkipSpace(s) == s && s[0] == open && SkipSpace(s[1..]) == [close] + rest
  {
    var s := ([open] + gap + [close]) + rest;
    assert s[1..] == gap + ([close] + rest);
    SkipSpaceSkips(gap, [close] + rest);
  }

  /** A closer right after the opener would be read as an empty array: no element starts so. */
  lemma NoElementCloses(es: seq<Element>, rest: Str, depth: int, maxDepth: int)
    requires ParseElements(ElementsText(es) + ([CLOSE_ARRAY] + rest), depth, maxDepth, []).Some?
    ensures
      var u := SkipSpace(ElementsText(es) + ([CLOSE_ARRAY] + rest));
      u == [] || u[0] != CLOSE_ARRAY
  {
    var u := SkipSpace(ElementsText(es) + ([CLOSE_ARRAY] + rest));
    if u != [] && u[0] == CLOSE_ARRAY {
      TakeNothing(u);
    }
  }

  lemma TakeNothing(u: Str)
    requires u != [] && u[0] == CLOSE_ARRAY
    ensures TakeLiteral(u).None?
  {
    assert NULL_WORD[0] == 0x6E && TRUE_WORD[0] == 0x74 && FALSE_WORD[0] == 0x66;
  }

  lemma {:induction false} ElementsComplete(es: seq<Element>, rest: Str, depth: int, maxDepth: int, items: seq<Json>)
    requires es != [] && StrictElements(es) && depth + 1 + ElementsDepth(es) <= maxDepth
    ensures ParseElements(ElementsText(es) + ([CLOSE_ARRAY] + rest), depth, maxDepth, items)
         == Some(Parsed(Array(items + ElementsValue(es)), rest))
    decreases es, 0
  {
    var e := es[0];
    var others := es[1..];
    var end := [CLOSE_ARRAY] + rest;
    assert es == [e] + others;
    if others == [] {
      ElementComplete(e, end, depth, maxDepth);
      assert SkipSpace(end) == end && end[1..] == rest;
      assert items + ElementsValue(es) == items + [TreeValue(e.tree)];
    } else {
      var tail := [COMMA] + (ElementsText(others) + end);
      ElementComplete(e, tail, depth, maxDepth);
      assert SkipSpace(tail) == tail && tail[1..] == ElementsText(others) + end;
      ElementsComplete(others, rest, depth, maxDepth, items + [TreeValue(e.tree)]);
      ElementsCons(e, others);
      Reassociate2(ElementText(e), COMMA, ElementsText(others), end);
      assert items + [TreeValue(e.tree)] + ElementsValue(others) == items + ElementsValue(es);
    }
  }

  /** One element and the white space after it, before a comma or a closer. */
  lemma {:induction false} ElementComplete(e: Element, tail: Str, depth: int, maxDepth: int)
    requires IsElement(e) && Strict(e.tree) && depth + 1 + TreeDepth(e.tree) <= maxDepth
    requires tail != [] && tail[0] in {COMMA, CLOSE_ARRAY, CLOSE_OBJECT}
    ensures
      var r := ParseValue(ElementText(e) + tail, depth + 1, maxDepth);
      r.Some? && r.value.value == TreeValue(e.tree) && SkipSpace(r.value.rest) == tail
    decreases e, 0
  {
    var after := e.after + tail;
    assert Follows(after) by {
      if e.after == [] { assert after == tail; } else { assert after[0] == e.after[0]; }
    }
    ValueComplete(e.before, e.tree, after, depth + 1, maxDepth);
    Regroup(e.before + TreeText(e.tree), e.after, tail);
    SkipSpaceSkips(e.after, tail);
    assert SkipSpace(tail) == tail;
  }

  lemma {:induction false} MembersComplete(ms: seq<Member>, rest: Str, depth: int, maxDepth: int,
                                           fields: map<Str, Json>)
    requires ms != [] && StrictMembers(ms) && depth + 1 + MembersDepth(ms) <= maxDepth
    requires DistinctKeys(ms) && AbsentKeys(ms, fields)
    ensures ParseMembers(MembersText(ms) + ([CLOSE_OBJECT] + rest), depth, maxDepth, fields)
         == Some(Parsed(Object(MembersValue(ms, fields)), rest))
    ensures
      var u := SkipSpace(MembersText(ms) + ([CLOSE_OBJECT] + rest));
      u != [] && u[0] == QUOTE
    decreases ms, 0
  {
    var m := ms[0];
    var others := ms[1..];
    var end := [CLOSE_OBJECT] + rest;
    var next := fields[PiecesValue(m.key) := TreeValue(m.element.tree)];
    assert ms == [m] + others;
    if others == [] {
      MemberComplete(m, end, depth, maxDepth, fields);
      assert end[1..] == rest;
    } else {
      var tail := [COMMA] + (MembersText(others) + end);
      MemberComplete(m, tail, depth, maxDepth, fields);
      assert tail[1..] == MembersText(others) + end;
      RemainingKeys(m, others, fields, TreeValue(m.element.tree));
      MembersComplete(others, rest, depth, maxDepth, next);
      Reassociate2(MemberText(m), COMMA, MembersText(others), end);
    }
  }

  lemma RemainingKeys(m: Member, ms: seq<Member>, fields: map<Str, Json>, item: Json)
    requires DistinctKeys([m] + ms) && AbsentKeys([m] + ms, fields) && StrictMembers([m] + ms)
    ensures DistinctKeys(ms) && AbsentKeys(ms, fields[PiecesValue(m.key) := item]) && StrictMembers(ms)
  {
    var all := [m] + ms;
    assert all[0] == m;
    assert forall i :: 0 <= i < |ms| ==> ms[i] == all[i + 1];
  }

  lemma {:induction false} MemberComplete(m: Member, w: Str, depth: int, maxDepth: int, fields: map<Str, Json>)
    requires StrictMember(m) && depth + 1 + TreeDepth(m.element.tree) <= maxDepth
    requires PiecesValue(m.key) !in fields
    requires w != [] && w[0] in {COMMA, CLOSE_OBJECT}
    ensures
      var u := SkipSpace(MemberText(m) + w);
      u != [] && u[0] == QUOTE
    ensures ParseMember(MemberText(m) + w, depth, maxDepth, fields)
         == Some(Gathered(fields[PiecesValue(m.key) := TreeValue(m.element.tree)], w))
    decreases m, 0
  {
    var s := MemberText(m) + w;
    var u := [COLON] + (ElementText(m.element) + w);
    var t := KeyText(m.key) + (m.middle + u);
    MemberJoins(m, m.before + t, t, u, w);
    TakeTextComplete(m.key, m.middle + u);
    SkipSpaceSkips(m.before, t);
    assert SkipSpace(t) == t;
    SkipSpaceSkips(m.middle, u);
    assert SkipSpace(u) == u && u[1..] == ElementText(m.element) + w;
    ElementComplete(m.element, w, depth, maxDepth);
  }

  /* The theorem. */

  /** `raw` spells `t` between white space, and `t` meets every demand. */
  ghost predicate Spells(raw: Str, maxDepth: int, before: Str, t: Tree, after: Str) {
    && AllSpace(before) && AllSpace(after) && IsTree(t)
    && raw == before + TreeText(t) + after
    && Strict(t) && TreeDepth(t) <= maxDepth
  }

  /** Exactly the strict texts are accepted, each with the value it denotes. */
  lemma ParseTextIff(raw: Str, maxDepth: int, v: Json)
    ensures ParseText(raw, maxDepth) == Some(v)
      <==> exists before, t, after :: Spells(raw, maxDepth, before, t, after) && TreeValue(t) == v
  {
    if ParseText(raw, maxDepth) == Some(v) {
      var before, t := ValueSound(raw, 0, maxDepth);
      var rest := ParseValue(raw, 0, maxDepth).value.rest;
      var after := SkipSpaceSplits(rest);
      assert rest == after;
      assert Spells(raw, maxDepth, before, t, after);
    }
    forall before, t, after | Spells(raw, maxDepth, before, t, after) && TreeValue(t) == v
      ensures ParseText(raw, maxDepth) == Some(v)
    {
      ValueComplete(before, t, after, 0, maxDepth);
      SkipSpaceSkips(after, []);
      assert after + [] == after;
    }
  }
}
