/** Transcript events of one session, and listings of them by sequence number. */
module Transcript {
  import opened Results
  import opened Orders

  datatype Status = Starting | Running | Busy | Exited | Crashed | Interrupted

  /** The id a client gives a prompt it submits: this bridge numbers its own. */
  datatype Cmid = Own(n: nat) | Foreign(name: string)

  datatype Update =
    | ToolFinished(toolCallId: string)
    | PromptCancelled(cmid: Cmid)
    | OtherUpdate(body: string)

  datatype Event =
    | Updated(update: Update)
    | PermissionRequest(requestId: string, toolCallId: Option<string>)
    | PermissionResolved(requestId: string)
    | TurnEnd(stopReason: string)
    | Lifecycle(status: Status, detail: Option<string>)

  /** `cmid` is the live-only echo of the prompt that an event dispatched; it is not stored. */
  datatype Envelope = Envelope(seqNo: nat, event: Event, cmid: Option<Cmid>)
  {
    function Stored(): Envelope {
      this.(cmid := None)
    }
  }

  /** Strictly increasing sequence numbers. */
  predicate Increasing(s: seq<Envelope>) {
    forall i, j :: 0 <= i < j < |s| ==> s[i].seqNo < s[j].seqNo
  }

  function StoredAll(s: seq<Envelope>): (r: seq<Envelope>)
    ensures |r| == |s| && forall i :: 0 <= i < |s| ==> r[i] == s[i].Stored()
  {
    seq(|s|, i requires 0 <= i < |s| => s[i].Stored())
  }

  predicate HasSeq(s: seq<Envelope>, n: nat) {
    exists i :: 0 <= i < |s| && s[i].seqNo == n
  }

  function BySeq(a: Envelope, b: Envelope): int {
    a.seqNo - b.seqNo
  }

  lemma BySeqCompares()
    ensures Comparator(BySeq)
  {
    assert forall a, b :: Flips(BySeq, a, b);
    assert forall a, b, c :: Chains(BySeq, a, b, c);
  }

  function SortBySeq(s: seq<Envelope>): seq<Envelope> {
    Sort(s, BySeq)
  }

  /** Of neighbours with one sequence number, the first. */
  function Dedup(s: seq<Envelope>): seq<Envelope> {
    if |s| < 2 then s
    else
      var init := Dedup(s[..|s| - 1]);
      if init != [] && init[|init| - 1].seqNo == s[|s| - 1].seqNo then init else init + [s[|s| - 1]]
  }

  lemma {:induction false} DedupKeeps(s: seq<Envelope>)
    requires Increasing(s)
    ensures Dedup(s) == s
  {
    if |s| >= 2 {
      DedupKeeps(s[..|s| - 1]);
      assert s == s[..|s| - 1] + [s[|s| - 1]];
    }
  }

  predicate Distinct(s: seq<Envelope>) {
    forall i, j :: 0 <= i < j < |s| ==> s[i].seqNo != s[j].seqNo
  }

  lemma {:induction false} DistinctMultiset(s: seq<Envelope>, t: seq<Envelope>)
    requires Distinct(s) && multiset(s) == multiset(t)
    ensures Distinct(t)
  {
    forall i, j | 0 <= i < j < |t| ensures t[i].seqNo != t[j].seqNo {
      assert t[i] in multiset(s) && t[j] in multiset(s);
      if t[i].seqNo == t[j].seqNo {
        var a :| 0 <= a < |s| && s[a] == t[i];
        var b :| 0 <= b < |s| && s[b] == t[j];
        assert a == b;
        Twice(t, i, j);
        Once(s, a);
      }
    }
  }

  lemma SortIncreases(s: seq<Envelope>)
    requires Distinct(s)
    ensures Increasing(SortBySeq(s)) && multiset(SortBySeq(s)) == multiset(s)
  {
    BySeqCompares();
    SortSorts(s, BySeq);
    DistinctMultiset(s, SortBySeq(s));
    var t := SortBySeq(s);
    forall i, j | 0 <= i < j < |t| ensures t[i].seqNo < t[j].seqNo {
      assert BySeq(t[i], t[j]) <= 0;
    }
  }

  /** `t` holds a copy of `x`: the same event under the same number. */
  predicate Copied(x: Envelope, t: seq<Envelope>) {
    exists j :: 0 <= j < |t| && t[j].seqNo == x.seqNo && t[j].event == x.event
  }

  /** Every envelope of `s` has a copy in `t`. */
  predicate CopiesOf(s: seq<Envelope>, t: seq<Envelope>) {
    forall i :: 0 <= i < |s| ==> Copied(s[i], t)
  }

  lemma FirstLeast(s: seq<Envelope>, t: seq<Envelope>)
    requires Increasing(s) && Increasing(t) && s != [] && CopiesOf(s, t)
    ensures t != [] && t[0].seqNo <= s[0].seqNo
  {
    assert Copied(s[0], t);
  }

  lemma CopiesTail(s: seq<Envelope>, t: seq<Envelope>)
    requires Increasing(s) && Increasing(t) && s != [] && t != [] && CopiesOf(s, t)
    requires s[0].seqNo == t[0].seqNo
    ensures CopiesOf(s[1..], t[1..])
  {
    forall i | 0 <= i < |s| - 1 ensures Copied(s[1..][i], t[1..]) {
      assert Copied(s[i + 1], t);
      var j :| 0 <= j < |t| && t[j].seqNo == s[i + 1].seqNo && t[j].event == s[i + 1].event;
      assert j > 0;
      assert t[1..][j - 1] == t[j];
    }
  }

  /** Two increasing listings of the same events are the same. */
  lemma {:induction false} IncreasingUnique(s: seq<Envelope>, t: seq<Envelope>)
    requires Increasing(s) && Increasing(t) && CopiesOf(s, t) && CopiesOf(t, s)
    ensures StoredAll(s) == StoredAll(t)
  {
    if s == [] {
      if t != [] {
        FirstLeast(t, s);
      }
    } else {
      FirstLeast(s, t);
      FirstLeast(t, s);
      HeadCopied(s, t);
      TailsCopied(s, t);
      IncreasingUnique(s[1..], t[1..]);
      StoredCons(s);
      StoredCons(t);
    }
  }

  lemma TailsCopied(s: seq<Envelope>, t: seq<Envelope>)
    requires Increasing(s) && Increasing(t) && CopiesOf(s, t) && CopiesOf(t, s)
    requires s != [] && t != [] && s[0].seqNo == t[0].seqNo
    ensures Increasing(s[1..]) && Increasing(t[1..]) && CopiesOf(s[1..], t[1..]) && CopiesOf(t[1..], s[1..])
  {
    CopiesTail(s, t);
    CopiesTail(t, s);
  }

  lemma HeadCopied(s: seq<Envelope>, t: seq<Envelope>)
    requires Increasing(t) && s != [] && t != [] && Copied(s[0], t) && s[0].seqNo == t[0].seqNo
    ensures s[0].Stored() == t[0].Stored()
  {
    var j :| 0 <= j < |t| && t[j].seqNo == s[0].seqNo && t[j].event == s[0].event;
    assert j == 0;
  }

  lemma StoredCons(s: seq<Envelope>)
    requires s != []
    ensures StoredAll(s) == [s[0].Stored()] + StoredAll(s[1..])
  {
  }
}
