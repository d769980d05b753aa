/** Bounded text: UTF-8 bytes kept up to a limit, cut on a character boundary. */
module Texts {
  import opened Results

  type Byte = b: int | 0 <= b < 0x100

  type Bytes = seq<Byte>

  /* UTF-8, RFC 3629 section 4. */

  predicate IsTail(b: Byte) {
    0x80 <= b <= 0xBF
  }

  /** Bytes of the character at the head of `s`, or 0 when there is none. */
  function CharLength(s: Bytes): (n: nat)
    ensures n <= |s| && n <= 4
    ensures n > 0 ==> !IsTail(s[0]) && forall i :: 1 <= i < n ==> IsTail(s[i])
  {
    if s == [] then 0
    else if s[0] <= 0x7F then 1
    else if |s| >= 2 && 0xC2 <= s[0] <= 0xDF && IsTail(s[1]) then 2
    else if |s| >= 3 && IsTail(s[2]) && (
        || (s[0] == 0xE0 && 0xA0 <= s[1] <= 0xBF)
        || ((0xE1 <= s[0] <= 0xEC || 0xEE <= s[0] <= 0xEF) && IsTail(s[1]))
        || (s[0] == 0xED && 0x80 <= s[1] <= 0x9F)) then 3
    else if |s| >= 4 && IsTail(s[2]) && IsTail(s[3]) && (
        || (s[0] == 0xF0 && 0x90 <= s[1] <= 0xBF)
        || (0xF1 <= s[0] <= 0xF3 && IsTail(s[1]))
        || (s[0] == 0xF4 && 0x80 <= s[1] <= 0x8F)) then 4
    else 0
  }

  /** `s` is a whole number of characters. */
  predicate ValidUtf8(s: Bytes) {
    s == [] || (CharLength(s) > 0 && ValidUtf8(s[CharLength(s)..]))
  }

  const ELLIPSIS: Bytes := [0xE2, 0x80, 0xA6]

  /* The buffer. */

  datatype Text = Text(value: Bytes, truncated: bool)

  const EMPTY := Text([], false)

  /** `str::is_char_boundary`. */
  predicate IsCharBoundary(s: Bytes, i: nat) {
    i == 0 || i == |s| || (i < |s| && !IsTail(s[i]))
  }

  /** The last character boundary at or before `n`. */
  function Cut(s: Bytes, n: nat): (cut: nat)
    ensures cut <= n
  {
    if n == 0 || IsCharBoundary(s, n) then n else Cut(s, n - 1)
  }

  function Append(t: Text, text: Bytes, limit: nat): Text {
    if t.truncated || text == [] then t
    else
      var room := if |t.value| <= limit then limit - |t.value| else 0;
      if |text| <= room then Text(t.value + text, false)
      else Text(t.value + text[..Cut(text, room)] + ELLIPSIS, true)
  }

  class TextBuffer {
    var value: Bytes
    var truncated: bool

    ghost function Content(): Text
      reads this
    {
      Text(value, truncated)
    }

    constructor ()
      ensures Content() == EMPTY
    {
      value := [];
      truncated := false;
    }

    /** Returns whether anything changed. */
    method AppendText(text: Bytes, limit: nat) returns (changed: bool)
      modifies this
      ensures Content() == Append(old(Content()), text, limit)
      ensures changed <==> Content() != old(Content())
    {
      if truncated || text == [] {
        return false;
      }
      var room := if |value| <= limit then limit - |value| else 0;
      if |text| <= room {
        value := value + text;
        assert |value| > |old(value)|;
        return true;
      }
      var cut: int := room;
      while cut > 0 && !IsCharBoundary(text, cut)
        invariant 0 <= cut <= room && Cut(text, cut) == Cut(text, room)
        decreases cut
      {
        cut := cut - 1;
      }
      value := value + text[..cut];
      value := value + ELLIPSIS;
      truncated := true;
      return true;
    }

    method SetText(text: Bytes, limit: nat) returns (changed: bool)
      modifies this
      ensures Content() == Append(EMPTY, text, limit)
      ensures changed <==> Content() != old(Content())
    {
      var before := value;
      var wasTruncated := truncated;
      value := [];
      truncated := false;
      var _ := AppendText(text, limit);
      return before != value || wasTruncated != truncated;
    }
  }

  /** `Text::get`: the value unless it is empty. */
  function Get(t: Text): Option<Bytes> {
    if t.value == [] then None else Some(t.value)
  }

  /* `str::trim`: the characters with the Unicode White_Space property. */

  /** Whether `s` starts with a white space character of `n` bytes. */
  predicate WhiteAt(s: Bytes, n: nat) {
    && n <= |s|
    && match n
       case 1 => 0x09 <= s[0] <= 0x0D || s[0] == 0x20
       case 2 => s[0] == 0xC2 && (s[1] == 0x85 || s[1] == 0xA0)
       case 3 =>
         || (s[0] == 0xE1 && s[1] == 0x9A && s[2] == 0x80)
         || (s[0] == 0xE2 && s[1] == 0x80 && (0x80 <= s[2] <= 0x8A || s[2] in {0xA8, 0xA9, 0xAF}))
         || (s[0] == 0xE2 && s[1] == 0x81 && s[2] == 0x9F)
         || (s[0] == 0xE3 && s[1] == 0x80 && s[2] == 0x80)
       case _ => false
  }

  function TrimStart(s: Bytes): Bytes
    decreases |s|
  {
    if WhiteAt(s, 1) then TrimStart(s[1..])
    else if WhiteAt(s, 2) then TrimStart(s[2..])
    else if WhiteAt(s, 3) then TrimStart(s[3..])
    else s
  }

  function TrimEnd(s: Bytes): Bytes
    decreases |s|
  {
    var n := |s|;
    if n >= 1 && WhiteAt(s[n - 1..], 1) then TrimEnd(s[..n - 1])
    else if n >= 2 && WhiteAt(s[n - 2..], 2) then TrimEnd(s[..n - 2])
    else if n >= 3 && WhiteAt(s[n - 3..], 3) then TrimEnd(s[..n - 3])
    else s
  }

  function Trim(s: Bytes): Bytes {
    TrimEnd(TrimStart(s))
  }

  /* What the buffer means. */

  /** The whole text if it fits, otherwise its longest prefix of whole characters that fits, and an ellipsis. */
  function Clip(s: Bytes, limit: nat): Text {
    if |s| <= limit then Text(s, false) else Text(s[..Cut(s, limit)] + ELLIPSIS, true)
  }

  function Concat(chunks: seq<Bytes>): Bytes {
    if chunks == [] then [] else Concat(chunks[..|chunks| - 1]) + chunks[|chunks| - 1]
  }

  function AppendAll(chunks: seq<Bytes>, limit: nat): Text {
    if chunks == [] then EMPTY
    else Append(AppendAll(chunks[..|chunks| - 1], limit), chunks[|chunks| - 1], limit)
  }

  lemma {:induction false} BoundaryIff(s: Bytes, i: nat)
    requires ValidUtf8(s) && i <= |s|
    ensures IsCharBoundary(s, i) <==> ValidUtf8(s[..i])
    decreases |s|
  {
    if i > 0 {
      var n := CharLength(s);
      if i < n {
        assert IsTail(s[i]);
        PartialChar(s, i);
      } else {
        SameHead(s, s[..i]);
        BoundaryIff(s[n..], i - n);
        assert s[..i][n..] == s[n..][..i - n];
        if i < |s| && i > n {
          assert s[n..][i - n] == s[i];
        }
        if i == n && i < |s| {
          assert !IsTail(s[n..][0]);
        }
      }
    }
  }

  /** A strict prefix of one character is not a character. */
  lemma PartialChar(s: Bytes, i: nat)
    requires 0 < i < CharLength(s)
    ensures CharLength(s[..i]) == 0
  {
  }

  lemma SameHead(s: Bytes, t: Bytes)
    requires t <= s && |t| >= CharLength(s) > 0
    ensures CharLength(t) == CharLength(s)
  {
    assert forall k :: 0 <= k < |t| ==> t[k] == s[k];
  }

  lemma {:induction false} ValidAppend(a: Bytes, b: Bytes)
    requires ValidUtf8(a) && ValidUtf8(b)
    ensures ValidUtf8(a + b)
    decreases |a|
  {
    if a == [] {
      assert a + b == b;
    } else {
      var n := CharLength(a);
      HeadStays(a, b);
      assert (a + b)[n..] == a[n..] + b;
      ValidAppend(a[n..], b);
    }
  }

  lemma HeadStays(a: Bytes, b: Bytes)
    requires CharLength(a) > 0
    ensures CharLength(a + b) == CharLength(a)
  {
    assert forall k :: 0 <= k < |a| ==> (a + b)[k] == a[k];
  }

  /** The cut is the longest prefix of whole characters within the limit. */
  lemma {:induction false} CutLongest(s: Bytes, n: nat)
    requires ValidUtf8(s) && n <= |s|
    ensures ValidUtf8(s[..Cut(s, n)])
    ensures forall i: nat :: i <= n && ValidUtf8(s[..i]) ==> i <= Cut(s, n)
  {
    BoundaryIff(s, n);
    if n > 0 && !IsCharBoundary(s, n) {
      CutLongest(s, n - 1);
    } else if n == 0 {
      assert s[..0] == [];
    }
  }

  lemma {:induction false} CutPrefix(s: Bytes, x: Bytes, n: nat)
    requires n < |s|
    ensures Cut(s + x, n) == Cut(s, n)
  {
    assert (s + x)[n] == s[n];
    if n > 0 && !IsCharBoundary(s, n) {
      CutPrefix(s, x, n - 1);
    }
  }

  /** A cut inside `x` is the same cut of `s + x`: characters do not straddle the join. */
  lemma {:induction false} CutSuffix(s: Bytes, x: Bytes, n: nat)
    requires n < |x| && !IsTail(x[0])
    ensures Cut(s + x, |s| + n) == |s| + Cut(x, n)
  {
    assert (s + x)[|s| + n] == x[n];
    if n > 0 && !IsCharBoundary(x, n) {
      CutSuffix(s, x, n - 1);
    }
  }

  lemma AppendAfterCut(s: Bytes, x: Bytes, limit: nat)
    requires |s| > limit
    ensures Append(Clip(s, limit), x, limit) == Clip(s + x, limit)
  {
    CutPrefix(s, x, limit);
    assert (s + x)[..Cut(s, limit)] == s[..Cut(s, limit)];
  }

  lemma AppendCuts(s: Bytes, x: Bytes, limit: nat)
    requires |s| <= limit < |s| + |x| && !IsTail(x[0])
    ensures Append(Text(s, false), x, limit) == Clip(s + x, limit)
  {
    CutSuffix(s, x, limit - |s|);
    TakeJoin(s, x, Cut(x, limit - |s|));
  }

  lemma TakeJoin(s: Bytes, x: Bytes, cut: nat)
    requires cut <= |x|
    ensures (s + x)[..|s| + cut] == s + x[..cut]
  {
  }

  /** One more chunk does what one longer text does. */
  lemma AppendClips(s: Bytes, x: Bytes, limit: nat)
    requires ValidUtf8(x)
    ensures Append(Clip(s, limit), x, limit) == Clip(s + x, limit)
  {
    if |s| > limit {
      AppendAfterCut(s, x, limit);
    } else if x == [] {
      assert s + x == s;
    } else if |x| > limit - |s| {
      AppendCuts(s, x, limit);
    }
  }

  lemma {:induction false} ConcatValid(chunks: seq<Bytes>)
    requires forall c :: c in chunks ==> ValidUtf8(c)
    ensures ValidUtf8(Concat(chunks))
  {
    if chunks != [] {
      ConcatValid(chunks[..|chunks| - 1]);
      ValidAppend(Concat(chunks[..|chunks| - 1]), chunks[|chunks| - 1]);
    }
  }

  /** However a text is split into chunks, the buffer ends up with the clipped text. */
  lemma {:induction false} ChunkingForgotten(chunks: seq<Bytes>, limit: nat)
    requires forall c :: c in chunks ==> ValidUtf8(c)
    ensures AppendAll(chunks, limit) == Clip(Concat(chunks), limit)
  {
    if chunks != [] {
      var init := chunks[..|chunks| - 1];
      ChunkingForgotten(init, limit);
      AppendClips(Concat(init), chunks[|chunks| - 1], limit);
    }
  }

  /** The clipped text is valid, bounded, and as long as it can be. */
  lemma ClipBest(s: Bytes, limit: nat)
    requires ValidUtf8(s)
    ensures ValidUtf8(Clip(s, limit).value) && |Clip(s, limit).value| <= limit + 3
    ensures |s| <= limit ==> Clip(s, limit).value == s
    ensures |s| > limit ==>
      exists n: nat ::
        && n <= limit && ValidUtf8(s[..n]) && Clip(s, limit).value == s[..n] + ELLIPSIS
        && forall i: nat :: i <= limit && ValidUtf8(s[..i]) ==> i <= n
  {
    if |s| > limit {
      CutLongest(s, limit);
      ValidAppend(s[..Cut(s, limit)], ELLIPSIS);
    }
  }
}
