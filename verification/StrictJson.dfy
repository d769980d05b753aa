/**
 * `strictJson`: one cursor advanced by mutually recursive scanners. A failure is
 * `None`; the source throws the single error "invalid_json" for all of them.
 */
module StrictJson {
  import opened Strings
  import opened Results
  import opened Json
  import opened Lexer
  import opened Grammar

  lemma SkipSpaceAgain(s: Str)
    ensures SkipSpace(SkipSpace(s)) == SkipSpace(s)
  {
  }

  /** Leading white space changes nothing. */
  lemma ElementsSkipSpace(s: Str, depth: int, maxDepth: int, items: seq<Json>)
    ensures ParseElements(SkipSpace(s), depth, maxDepth, items) == ParseElements(s, depth, maxDepth, items)
  {
    SkipSpaceAgain(s);
    assert ParseValue(SkipSpace(s), depth + 1, maxDepth) == ParseValue(s, depth + 1, maxDepth);
  }

  lemma MembersSkipSpace(s: Str, depth: int, maxDepth: int, fields: map<Str, Json>)
    ensures SkipSpace(SkipSpace(s)) == SkipSpace(s)
    ensures ParseMembers(SkipSpace(s), depth, maxDepth, fields) == ParseMembers(s, depth, maxDepth, fields)
  {
    SkipSpaceAgain(s);
    assert ParseMember(SkipSpace(s), depth, maxDepth, fields) == ParseMember(s, depth, maxDepth, fields);
  }

  /** The scan for unpaired surrogates. */
  method PairedSurrogates(value: Str) returns (paired: bool)
    ensures paired <==> WellFormed(value)
  {
    var index := 0;
    while index < |value|
      invariant 0 <= index <= |value|
      invariant WellFormed(value[index..]) <==> WellFormed(value)
    {
      var unit := value[index];
      var suffix := value[index..];
      if IsHigh(unit) {
        index := index + 1;
        if !(index < |value| && IsLow(value[index])) {
          return false;
        }
        assert suffix[1] == value[index] && suffix[2..] == value[index + 1..];
      } else if IsLow(unit) {
        return false;
      } else {
        assert suffix[1..] == value[index + 1..];
      }
      index := index + 1;
    }
    assert value[index..] == [];
    return true;
  }

  /** Where the string that starts at `start` ends, as found by scanning on from `pos`. */
  function EndFrom(raw: Str, start: nat, pos: nat): Option<nat>
    requires start <= pos
  {
    if pos > |raw| then None else Shift(StringEnd(raw[pos..]), pos - start)
  }

  lemma EndStep(raw: Str, start: nat, pos: nat)
    requires start <= pos < |raw|
    ensures EndFrom(raw, start, pos) ==
      if raw[pos] == QUOTE then Some(pos + 1 - start)
      else EndFrom(raw, start, if raw[pos] == BACKSLASH then pos + 2 else pos + 1)
  {
    var here := raw[pos..];
    if pos + Stride(here) <= |raw| {
      assert here[Stride(here)..] == raw[pos + Stride(here)..];
    }
  }

  class Parser {
    const raw: Str
    const maxDepth: int
    var pos: nat

    constructor (raw: Str, maxDepth: int)
      ensures this.raw == raw && this.maxDepth == maxDepth && pos == 0
    {
      this.raw := raw;
      this.maxDepth := maxDepth;
      pos := 0;
    }

    method Space()
      requires pos <= |raw|
      modifies `pos
      ensures old(pos) <= pos <= |raw|
      ensures raw[pos..] == SkipSpace(raw[old(pos)..])
    {
      while pos < |raw| && IsSpace(raw[pos])
        invariant old(pos) <= pos <= |raw|
        invariant SkipSpace(raw[pos..]) == SkipSpace(raw[old(pos)..])
      {
        assert raw[pos..][1..] == raw[pos + 1..];
        pos := pos + 1;
      }
    }

    /** Moves the cursor past the closing quote of the string token that starts here. */
    method Scan() returns (closed: bool)
      requires pos < |raw|
      modifies `pos
      ensures
        var end := StringEnd(raw[old(pos) + 1..]);
        closed == end.Some? && (closed ==> pos == old(pos) + 1 + end.value)
    {
      var start := pos + 1;
      pos := start;
      while pos < |raw|
        invariant start <= pos
        invariant EndFrom(raw, start, pos) == EndFrom(raw, start, start)
      {
        EndStep(raw, start, pos);
        var unit := raw[pos];
        if unit == BACKSLASH {
          pos := pos + 2;
        } else {
          pos := pos + 1;
          if unit == QUOTE {
            return true;
          }
        }
      }
      return false;
    }

    method String() returns (r: Option<Str>)
      requires pos < |raw| && raw[pos] == QUOTE
      modifies `pos
      ensures
        var spec := TakeText(raw[old(pos)..]);
        && (r.Some? <==> spec.Some?)
        && (r.Some? ==> r.value == spec.value.text && old(pos) < pos <= |raw| && raw[pos..] == spec.value.rest)
    {
      var start := pos;
      ghost var token := raw[start..];
      assert token[1..] == raw[start + 1..];
      var closed := Scan();
      if !closed {
        return None;
      }
      assert token[1..pos - start - 1] == raw[start + 1..pos - 1];
      assert token[pos - start..] == raw[pos..];
      var pieces := TakePieces(raw[start + 1..pos - 1]);
      if pieces.None? {
        return None;
      }
      var value := PiecesValue(pieces.value);
      var paired := PairedSurrogates(value);
      return if paired then Some(value) else None;
    }

    /** The literal branch: a match of the regular expression, then the bound on numbers. */
    method Literal() returns (r: Option<Json>)
      requires pos <= |raw|
      modifies `pos
      ensures
        var spec := ParseLiteral(raw[old(pos)..]);
        && (r.Some? <==> spec.Some?)
        && (r.Some? ==> r.value == spec.value.value && old(pos) < pos <= |raw| && raw[pos..] == spec.value.rest)
    {
      var literal := TakeLiteral(raw[pos..]);
      if literal.None? {
        return None;
      }
      TakeLiteralSound(raw[pos..]);
      var length := |TreeText(literal.value)|;
      assert raw[pos..][length..] == raw[pos + length..];
      pos := pos + length;
      var decoded := TreeValue(literal.value);
      if literal.value.NumberTree? && !Bounded(decoded.n) {
        return None;
      }
      return Some(decoded);
    }

    method Value(depth: int) returns (r: Option<Json>)
      requires pos <= |raw|
      modifies `pos
      ensures
        var spec := ParseValue(raw[old(pos)..], depth, maxDepth);
        && (r.Some? <==> spec.Some?)
        && (r.Some? ==> r.value == spec.value.value && old(pos) < pos <= |raw| && raw[pos..] == spec.value.rest)
      decreases |raw| - pos, 1
    {
      if depth > maxDepth {
        return None;
      }
      Space();
      if pos == |raw| {
        return None;
      }
      var token := raw[pos];
      if token == QUOTE {
        var text := String();
        return if text.None? then None else Some(Text(text.value));
      }
      if token == OPEN_OBJECT || token == OPEN_ARRAY {
        r := Container(depth);
        return;
      }
      r := Literal();
    }

    /** A container up to its first entry; the source's one entry loop is split by its flag. */
    method Container(depth: int) returns (r: Option<Json>)
      requires pos < |raw| && raw[pos] in {OPEN_OBJECT, OPEN_ARRAY} && depth <= maxDepth
      modifies `pos
      ensures
        var spec := ParseValue(raw[old(pos)..], depth, maxDepth);
        && (r.Some? <==> spec.Some?)
        && (r.Some? ==> r.value == spec.value.value && old(pos) < pos <= |raw| && raw[pos..] == spec.value.rest)
      decreases |raw| - pos, 0
    {
      var isObject := raw[pos] == OPEN_OBJECT;
      var end := if isObject then CLOSE_OBJECT else CLOSE_ARRAY;
      ghost var inner := raw[pos + 1..];
      assert raw[pos..][1..] == inner;
      pos := pos + 1;
      Space();
      if pos < |raw| && raw[pos] == end {
        assert raw[pos..][1..] == raw[pos + 1..];
        pos := pos + 1;
        return Some(if isObject then Object(map[]) else Array([]));
      }
      ElementsSkipSpace(inner, depth, maxDepth, []);
      MembersSkipSpace(inner, depth, maxDepth, map[]);
      if isObject {
        r := Members(depth);
      } else {
        r := Elements(depth);
      }
    }

    /** The closer or the comma after an entry; after a comma the cursor is at the next entry. */
    method Separator(close: Unit) returns (r: Option<bool>)
      requires pos <= |raw|
      modifies `pos
      ensures
        var t := raw[old(pos)..];
        if t == [] || (t[0] != close && t[0] != COMMA) then r.None?
        else
          && old(pos) < pos <= |raw| && r == Some(t[0] == close)
          && raw[pos..] == if t[0] == close then t[1..] else SkipSpace(t[1..])
    {
      if pos == |raw| {
        return None;
      }
      assert raw[pos..][1..] == raw[pos + 1..];
      pos := pos + 1;
      if raw[pos - 1] == close {
        return Some(true);
      }
      if raw[pos - 1] != COMMA {
        return None;
      }
      Space();
      return Some(false);
    }

    /** One pass of the array loop: the items so far, and whether the array is closed. */
    method NextElement(depth: int, items: seq<Json>) returns (r: Option<seq<Json>>, closed: bool)
      requires pos < |raw|
      modifies `pos
      ensures old(pos) < pos <= |raw| || r.None?
      ensures
        ParseElements(raw[old(pos)..], depth, maxDepth, items) ==
          if r.None? then None
          else if closed then Some(Parsed(Array(r.value), raw[pos..]))
          else ParseElements(raw[pos..], depth, maxDepth, r.value)
      decreases |raw| - pos, 2
    {
      closed := false;
      var item := Value(depth + 1);
      if item.None? {
        return None, false;
      }
      Space();
      ghost var t := raw[pos..];
      var separator := Separator(CLOSE_ARRAY);
      if separator.None? {
        return None, false;
      }
      if !separator.value {
        ElementsSkipSpace(t[1..], depth, maxDepth, items + [item.value]);
      }
      return Some(items + [item.value]), separator.value;
    }

    method Elements(depth: int) returns (r: Option<Json>)
      requires pos <= |raw|
      modifies `pos
      ensures
        var spec := ParseElements(raw[old(pos)..], depth, maxDepth, []);
        && (r.Some? <==> spec.Some?)
        && (r.Some? ==> r.value == spec.value.value && old(pos) < pos <= |raw| && raw[pos..] == spec.value.rest)
      decreases |raw| - pos, 3
    {
      var items: seq<Json> := [];
      ghost var spec := ParseElements(raw[pos..], depth, maxDepth, []);
      while pos < |raw|
        invariant old(pos) <= pos <= |raw|
        invariant spec == ParseElements(raw[pos..], depth, maxDepth, items)
      {
        var next, closed := NextElement(depth, items);
        if next.None? {
          return None;
        }
        items := next.value;
        if closed {
          return Some(Array(items));
        }
      }
      return None;
    }

    /** A key that `fields` does not hold yet, through the colon after it. */
    method Key(fields: map<Str, Json>) returns (r: Option<Str>)
      requires pos < |raw|
      modifies `pos
      ensures
        var t := raw[old(pos)..];
        if t[0] != QUOTE || TakeText(t).None? then r.None?
        else
          var u := SkipSpace(TakeText(t).value.rest);
          if u == [] || u[0] != COLON || TakeText(t).value.text in fields then r.None?
          else r == Some(TakeText(t).value.text) && old(pos) < pos <= |raw| && raw[pos..] == u[1..]
    {
      if raw[pos] != QUOTE {
        return None;
      }
      r := String();
      if r.None? {
        return None;
      }
      Space();
      if pos == |raw| || raw[pos] != COLON || r.value in fields {
        return None;
      }
      assert raw[pos..][1..] == raw[pos + 1..];
      pos := pos + 1;
    }

    /** One member and the white space after it, added to `fields`. */
    method Entry(depth: int, fields: map<Str, Json>) returns (r: Option<map<Str, Json>>)
      requires pos < |raw| && SkipSpace(raw[pos..]) == raw[pos..]
      modifies `pos
      ensures
        var spec := ParseMember(raw[old(pos)..], depth, maxDepth, fields);
        && (r.Some? <==> spec.Some?)
        && (r.Some? ==> r.value == spec.value.fields && old(pos) < pos <= |raw| && raw[pos..] == spec.value.rest)
      decreases |raw| - pos, 2
    {
      var key := Key(fields);
      if key.None? {
        return None;
      }
      var item := Value(depth + 1);
      if item.None? {
        return None;
      }
      Space();
      return Some(fields[key.value := item.value]);
    }

    /** One pass of the object loop: the fields so far, and whether the object is closed. */
    method NextMember(depth: int, fields: map<Str, Json>) returns (r: Option<map<Str, Json>>, closed: bool)
      requires pos < |raw| && SkipSpace(raw[pos..]) == raw[pos..]
      modifies `pos
      ensures old(pos) < pos <= |raw| || r.None?
      ensures r.Some? && !closed ==> SkipSpace(raw[pos..]) == raw[pos..]
      ensures
        ParseMembers(raw[old(pos)..], depth, maxDepth, fields) ==
          if r.None? then None
          else if closed then Some(Parsed(Object(r.value), raw[pos..]))
          else ParseMembers(raw[pos..], depth, maxDepth, r.value)
      decreases |raw| - pos, 3
    {
      closed := false;
      r := Entry(depth, fields);
      if r.None? {
        return;
      }
      ghost var t := raw[pos..];
      var separator := Separator(CLOSE_OBJECT);
      if separator.None? {
        return None, false;
      }
      closed := separator.value;
      if !closed {
        MembersSkipSpace(t[1..], depth, maxDepth, r.value);
      }
    }

    method Members(depth: int) returns (r: Option<Json>)
      requires pos <= |raw| && SkipSpace(raw[pos..]) == raw[pos..]
      modifies `pos
      ensures
        var spec := ParseMembers(raw[old(pos)..], depth, maxDepth, map[]);
        && (r.Some? <==> spec.Some?)
        && (r.Some? ==> r.value == spec.value.value && old(pos) < pos <= |raw| && raw[pos..] == spec.value.rest)
      decreases |raw| - pos, 4
    {
      var result: map<Str, Json> := map[];
      ghost var spec := ParseMembers(raw[pos..], depth, maxDepth, map[]);
      while pos < |raw|
        invariant old(pos) <= pos <= |raw|
        invariant SkipSpace(raw[pos..]) == raw[pos..]
        invariant spec == ParseMembers(raw[pos..], depth, maxDepth, result)
      {
        var next, closed := NextMember(depth, result);
        if next.None? {
          return None;
        }
        result := next.value;
        if closed {
          return Some(Object(result));
        }
      }
      return None;
    }
  }

  method Parse(raw: Str, maxBytes: int, maxDepth: int) returns (r: Option<Json>)
    ensures r == Decode(raw, maxBytes, maxDepth)
  {
    if |raw| > maxBytes || Utf8Length(raw) > maxBytes {
      Utf8AtLeast(raw);
      return None;
    }
    var parser := new Parser(raw, maxDepth);
    assert raw[0..] == raw;
    var result := parser.Value(0);
    if result.None? {
      return None;
    }
    parser.Space();
    return if parser.pos != |raw| then None else result;
  }

  function Decode(raw: Str, maxBytes: int, maxDepth: int): Option<Json> {
    if Utf8Length(raw) > maxBytes then None else ParseText(raw, maxDepth)
  }

  /** The cheap test on code units never rejects what the byte test accepts. */
  lemma {:induction false} Utf8AtLeast(s: Str)
    ensures |s| <= Utf8Length(s)
  {
    if s == [] {
    } else if s[0] >= 0x800 && IsHigh(s[0]) && |s| >= 2 && IsLow(s[1]) {
      Utf8AtLeast(s[2..]);
    } else {
      Utf8AtLeast(s[1..]);
    }
  }

  /** Acceptance and value, all limits included. */
  lemma DecodeIff(raw: Str, maxBytes: int, maxDepth: int, v: Json)
    ensures Decode(raw, maxBytes, maxDepth) == Some(v)
      <==> Utf8Length(raw) <= maxBytes
           && exists before, t, after :: Spells(raw, maxDepth, before, t, after) && TreeValue(t) == v
  {
    ParseTextIff(raw, maxDepth, v);
  }
}
