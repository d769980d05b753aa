/** What a kept child shows of everything that reached it since it was announced. */
module ChildHistory {
  import opened Results
  import opened Texts
  import opened SubagentFold

  /** One thing that reached a child: its announcement, an update of its own session, or a message linked to it. */
  datatype Deed =
    | Told(update: Update)
    | Inside(update: Update)
    | Said(link: Link, update: Update)

  type Deeds = seq<Deed>

  predicate Fits(d: Deed) {
    (d.Told? ==> d.update.SubagentUpdate?) && (d.Said? ==> d.update.IsMessage())
  }

  /** What one deed makes of the child. */
  function After(c: Child, d: Deed, now: nat): Child
    requires Fits(d)
  {
    match d
    case Told(u) => Announced(c, u, now)
    case Inside(u) => Fold(c, u, now).child
    case Said(link, u) => WithMessage(c, link, u)
  }

  /* The entries: which deed opened each, and what was said of it since. */

  predicate StartsTool(d: Deed) {
    d.Inside? && d.update.ToolCall? && d.update.toolCallId.Some?
  }

  predicate Streams(d: Deed) {
    d.Inside? && d.update.AgentMessageChunk? && d.update.text.Some?
  }

  predicate Moves(d: Deed) {
    StartsTool(d) || Streams(d)
  }

  predicate SameMessage(d: Deed, e: Deed) {
    Streams(d) && Streams(e) && d.update.messageId == e.update.messageId
  }

  /** A chunk goes on with the message of the chunk before it. */
  ghost predicate Joins(ds: Deeds, k: nat)
    requires k < |ds|
  {
    exists j :: 0 <= j < k && SameMessage(ds[j], ds[k]) && forall i :: j < i < k ==> !Moves(ds[i])
  }

  ghost predicate Opens(ds: Deeds, k: nat)
    requires k < |ds|
  {
    Moves(ds[k]) && !Joins(ds, k)
  }

  /** The deeds that opened an entry, oldest first. */
  ghost function Openings(ds: Deeds): (os: seq<nat>)
    ensures forall i :: 0 <= i < |os| ==> os[i] < |ds|
  {
    if ds == [] then []
    else
      var last := |ds| - 1;
      Openings(ds[..last]) + if Opens(ds, last) then [last] else []
  }

  /** Deed `k` is an update of the tool that deed `o` started, and no later call took its name. */
  ghost predicate Updates(ds: Deeds, o: nat, k: nat)
    requires o < |ds| && k < |ds| && StartsTool(ds[o])
  {
    && o < k && ds[k].Inside? && ds[k].update.ToolCallUpdate?
    && ds[k].update.toolCallId == ds[o].update.toolCallId
    && forall j :: o < j < k && StartsTool(ds[j]) ==> ds[j].update.toolCallId != ds[o].update.toolCallId
  }

  /** The status last named for the tool that deed `o` started. */
  ghost function StatusOf(ds: Deeds, o: nat): Bytes
    requires o < |ds| && StartsTool(ds[o])
    decreases |ds|
  {
    var last := |ds| - 1;
    if o == last then if ds[o].update.status.Some? then ds[o].update.status.value else PENDING
    else if Updates(ds, o, last) && ds[last].update.status.Some? then ds[last].update.status.value
    else StatusOf(ds[..last], o)
  }

  /** The title last named for the tool that deed `o` started, or its id. */
  ghost function TitleOf(ds: Deeds, o: nat): Bytes
    requires o < |ds| && StartsTool(ds[o])
    decreases |ds|
  {
    var last := |ds| - 1;
    if o == last then
      if ds[o].update.toolTitle.Some? then ds[o].update.toolTitle.value else ds[o].update.toolCallId.value
    else if Updates(ds, o, last) && ds[last].update.toolTitle.Some? then ds[last].update.toolTitle.value
    else TitleOf(ds[..last], o)
  }

  /** Deed `k` is a chunk of the message that deed `o` opened. */
  ghost predicate Continued(ds: Deeds, o: nat, k: nat)
    requires o < |ds| && k < |ds|
  {
    o < k && Streams(ds[k]) && forall j :: o < j <= k ==> !Opens(ds, j)
  }

  /** The chunks of the message that deed `o` opened. */
  ghost function ChunksOf(ds: Deeds, o: nat): seq<Bytes>
    requires o < |ds| && Streams(ds[o])
    decreases |ds|
  {
    var last := |ds| - 1;
    if o == last then [ds[o].update.text.value]
    else ChunksOf(ds[..last], o) + if Continued(ds, o, last) then [ds[last].update.text.value] else []
  }

  function ShortLabel(value: Bytes): Text {
    Clip(Trim(value), LABEL_BYTES)
  }

  /** `a` is what is kept of the entry that deed `o` opened. */
  ghost predicate EntryTold(ds: Deeds, o: nat, a: Activity)
    requires o < |ds|
  {
    if StartsTool(ds[o]) then
      a == Tool(ds[o].update.toolCallId.value, ShortLabel(TitleOf(ds, o)), ds[o].update.kind, StatusOf(ds, o))
    else
      && Streams(ds[o])
      && a == Message(ds[o].update.messageId, AppendAll(ChunksOf(ds, o), ACTIVITY_TEXT_BYTES))
  }

  /** The entries are those the deeds `os` opened, each as it was told. */
  ghost predicate AllTold(ds: Deeds, os: seq<nat>, activity: seq<Activity>) {
    |activity| == |os| && forall i :: 0 <= i < |os| ==> os[i] < |ds| && EntryTold(ds, os[i], activity[i])
  }

  function Newest(os: seq<nat>): seq<nat> {
    if |os| <= MAX_ACTIVITY then os else os[|os| - MAX_ACTIVITY..]
  }

  /** The newest entries are kept, each as it was told. */
  ghost predicate EntriesTold(activity: seq<Activity>, ds: Deeds) {
    AllTold(ds, Newest(Openings(ds)), activity)
  }

  /* Openings, as deeds come. */

  lemma OpensPrefix(ds: Deeds, d: Deed, k: nat)
    requires k < |ds|
    ensures Opens(ds + [d], k) <==> Opens(ds, k)
  {
    var es := ds + [d];
    assert forall i :: 0 <= i < |ds| ==> es[i] == ds[i];
    if Joins(es, k) {
      var j :| 0 <= j < k && SameMessage(es[j], es[k]) && forall i :: j < i < k ==> !Moves(es[i]);
      assert SameMessage(ds[j], ds[k]);
      assert forall i :: j < i < k ==> es[i] == ds[i];
    }
    if Joins(ds, k) {
      var j :| 0 <= j < k && SameMessage(ds[j], ds[k]) && forall i :: j < i < k ==> !Moves(ds[i]);
      assert SameMessage(es[j], es[k]);
    }
  }

  lemma OpeningsNext(ds: Deeds, d: Deed)
    ensures Openings(ds + [d]) == Openings(ds) + if Opens(ds + [d], |ds|) then [|ds|] else []
  {
    assert (ds + [d])[..|ds|] == ds;
  }

  ghost predicate Rising(os: seq<nat>) {
    forall i, j :: 0 <= i < j < |os| ==> os[i] < os[j]
  }

  lemma {:induction false} OpeningsAre(ds: Deeds)
    ensures Rising(Openings(ds))
    ensures forall k: nat :: k in Openings(ds) <==> k < |ds| && Opens(ds, k)
  {
    if ds != [] {
      var init, last := ds[..|ds| - 1], ds[|ds| - 1];
      assert ds == init + [last];
      OpeningsAre(init);
      OpeningsNext(init, last);
      forall k: nat | k < |init| ensures Opens(ds, k) <==> Opens(init, k) {
        OpensPrefix(init, last, k);
      }
    }
  }

  /** The last deed that opened or continued an entry, or the number of deeds if none did. */
  ghost function LastMove(ds: Deeds): (k: nat)
    ensures k < |ds| ==> Moves(ds[k]) && forall i :: k < i < |ds| ==> !Moves(ds[i])
    ensures k >= |ds| ==> k == |ds| && forall i :: 0 <= i < |ds| ==> !Moves(ds[i])
  {
    if ds == [] then 0
    else if Moves(ds[|ds| - 1]) then |ds| - 1
    else
      var k := LastMove(ds[..|ds| - 1]);
      if k == |ds| - 1 then |ds| else k
  }

  /** The newest entry is the one the last such deed opened or continued. */
  ghost predicate NewestTold(activity: seq<Activity>, ds: Deeds) {
    var k := LastMove(ds);
    if k == |ds| then activity == []
    else
      && activity != []
      && var newest := activity[|activity| - 1];
         if StartsTool(ds[k]) then newest.Tool?
         else newest.Message? && newest.messageId == ds[k].update.messageId
  }

  lemma MoveNext(ds: Deeds, d: Deed)
    ensures LastMove(ds + [d]) ==
      if Moves(d) then |ds| else if LastMove(ds) == |ds| then |ds| + 1 else LastMove(ds)
  {
    assert (ds + [d])[..|ds|] == ds;
  }

  lemma LastMoveIs(ds: Deeds, j: nat)
    requires j < |ds| && Moves(ds[j]) && forall i :: j < i < |ds| ==> !Moves(ds[i])
    ensures LastMove(ds) == j
  {
  }

  /** A chunk continues the newest entry exactly when it goes on with its message. */
  lemma ContinuesIff(c: Child, ds: Deeds, d: Deed)
    requires NewestTold(c.activity, ds) && Streams(d)
    ensures Continues(c, d.update.messageId) <==> Joins(ds + [d], |ds|)
  {
    var es, k := ds + [d], LastMove(ds);
    assert forall i :: 0 <= i < |ds| ==> es[i] == ds[i];
    if Joins(es, |ds|) {
      var j :| 0 <= j < |ds| && SameMessage(es[j], es[|ds|]) && forall i :: j < i < |ds| ==> !Moves(es[i]);
      assert Moves(ds[j]);
      assert k == j by {
        LastMoveIs(ds, j);
      }
    }
    if Continues(c, d.update.messageId) {
      assert SameMessage(es[k], es[|ds|]);
    }
  }

  /* Entries, as deeds come. */

  lemma UpdatesPrefix(ds: Deeds, d: Deed, o: nat, k: nat)
    requires o < |ds| && k < |ds| && StartsTool(ds[o])
    ensures Updates(ds + [d], o, k) <==> Updates(ds, o, k)
  {
    var es := ds + [d];
    assert forall i :: 0 <= i < |ds| ==> es[i] == ds[i];
  }

  lemma ToolNext(ds: Deeds, d: Deed, o: nat)
    requires o < |ds| && StartsTool(ds[o])
    ensures
      var es := ds + [d];
      && StartsTool(es[o])
      && StatusOf(es, o) == (if Updates(es, o, |ds|) && d.update.status.Some? then d.update.status.value
                             else StatusOf(ds, o))
      && TitleOf(es, o) == (if Updates(es, o, |ds|) && d.update.toolTitle.Some? then d.update.toolTitle.value
                            else TitleOf(ds, o))
  {
    assert (ds + [d])[..|ds|] == ds;
  }

  lemma ChunksNext(ds: Deeds, d: Deed, o: nat)
    requires o < |ds| && Streams(ds[o])
    ensures
      var es := ds + [d];
      && Streams(es[o])
      && ChunksOf(es, o) == ChunksOf(ds, o) + if Continued(es, o, |ds|) then [d.update.text.value] else []
  {
    assert (ds + [d])[..|ds|] == ds;
  }

  /** A deed that says nothing of an entry leaves it. */
  lemma EntryStays(ds: Deeds, d: Deed, o: nat, a: Activity)
    requires o < |ds| && EntryTold(ds, o, a)
    requires StartsTool(ds[o]) ==> !Updates(ds + [d], o, |ds|)
    requires !StartsTool(ds[o]) ==> !Continued(ds + [d], o, |ds|)
    ensures EntryTold(ds + [d], o, a)
  {
    if StartsTool(ds[o]) {
      ToolNext(ds, d, o);
    } else {
      ChunksNext(ds, d, o);
      assert ChunksOf(ds, o) + [] == ChunksOf(ds, o);
    }
  }

  lemma LabelClips(value: Bytes)
    ensures Label(value) == ShortLabel(value)
    ensures Append(EMPTY, Trim(value), LABEL_BYTES) == ShortLabel(value)
  {
  }

  predicate PatchesTool(d: Deed) {
    d.Inside? && d.update.ToolCallUpdate? && d.update.toolCallId.Some?
  }

  /** Entries that deed `d` says nothing of stay. */
  lemma AllStay(ds: Deeds, d: Deed, os: seq<nat>, activity: seq<Activity>)
    requires AllTold(ds, os, activity)
    requires !PatchesTool(d) && (Streams(d) ==> Opens(ds + [d], |ds|))
    ensures AllTold(ds + [d], os, activity)
  {
    forall i | 0 <= i < |os| ensures EntryTold(ds + [d], os[i], activity[i]) {
      QuietDeed(ds, d, os[i]);
      EntryStays(ds, d, os[i], activity[i]);
    }
  }

  lemma QuietDeed(ds: Deeds, d: Deed, o: nat)
    requires o < |ds| && !PatchesTool(d) && (Streams(d) ==> Opens(ds + [d], |ds|))
    ensures (ds + [d])[o] == ds[o]
    ensures StartsTool(ds[o]) ==> !Updates(ds + [d], o, |ds|)
    ensures !Continued(ds + [d], o, |ds|)
  {
  }

  /** Deeds that neither open nor continue nor update leave every entry. */
  lemma EntriesStay(activity: seq<Activity>, ds: Deeds, d: Deed)
    requires EntriesTold(activity, ds) && NewestTold(activity, ds) && !Moves(d) && !PatchesTool(d)
    ensures EntriesTold(activity, ds + [d]) && NewestTold(activity, ds + [d])
  {
    OpeningsNext(ds, d);
    MoveNext(ds, d);
    AllStay(ds, d, Newest(Openings(ds)), activity);
  }

  lemma NewestNext(os: seq<nat>, k: nat)
    ensures
      var kept := Newest(os);
      Newest(os + [k]) == (if |kept| == MAX_ACTIVITY then kept[1..] else kept) + [k]
  {
  }

  /** A deed that opens an entry: it is kept as told, and the oldest goes when there is no room. */
  lemma EntryOpened(activity: seq<Activity>, ds: Deeds, d: Deed, entry: Activity)
    requires EntriesTold(activity, ds) && Opens(ds + [d], |ds|) && EntryTold(ds + [d], |ds|, entry)
    requires !PatchesTool(d)
    ensures
      var kept := if |activity| == MAX_ACTIVITY then activity[1..] else activity;
      EntriesTold(kept + [entry], ds + [d])
  {
    var os := Newest(Openings(ds));
    OpeningsNext(ds, d);
    NewestNext(Openings(ds), |ds|);
    AllStay(ds, d, os, activity);
    AllShift(ds + [d], os, activity, |ds|, entry);
  }

  lemma AllShift(ds: Deeds, os: seq<nat>, activity: seq<Activity>, o: nat, entry: Activity)
    requires AllTold(ds, os, activity) && o < |ds| && EntryTold(ds, o, entry)
    ensures AllTold(ds, os + [o], activity + [entry])
    ensures |os| > 0 ==> AllTold(ds, os[1..] + [o], activity[1..] + [entry])
  {
  }

  lemma MessageOpened(c: Child, ds: Deeds, d: Deed)
    requires EntriesTold(c.activity, ds) && Streams(d) && Opens(ds + [d], |ds|)
    ensures
      var e := NewMessage(c, d.update.messageId, d.update.text.value);
      EntriesTold(e.activity, ds + [d]) && NewestTold(e.activity, ds + [d])
  {
    var text := d.update.text.value;
    assert AppendAll([text], ACTIVITY_TEXT_BYTES) == Append(EMPTY, text, ACTIVITY_TEXT_BYTES) by {
      assert AppendAll([text][..0], ACTIVITY_TEXT_BYTES) == EMPTY;
    }
    var entry := Message(d.update.messageId, Append(EMPTY, text, ACTIVITY_TEXT_BYTES));
    Pushed(c.(lastMessage := Append(EMPTY, text, MESSAGE_BYTES), messages := Increment(c.messages)), ds, d, entry);
  }

  lemma ToolOpened(c: Child, ds: Deeds, d: Deed)
    requires EntriesTold(c.activity, ds) && StartsTool(d)
    ensures Opens(ds + [d], |ds|)
    ensures
      var u := d.update;
      var e := NewTool(c, u.toolCallId.value, u.toolTitle, u.kind, u.status);
      EntriesTold(e.activity, ds + [d]) && NewestTold(e.activity, ds + [d])
  {
    var u := d.update;
    var title := if u.toolTitle.Some? then u.toolTitle.value else u.toolCallId.value;
    var entry := Tool(u.toolCallId.value, Label(title), u.kind, if u.status.Some? then u.status.value else PENDING);
    assert EntryTold(ds + [d], |ds|, entry) by {
      LabelClips(title);
    }
    Pushed(c.(toolCalls := Increment(c.toolCalls)), ds, d, entry);
  }

  /** Pushing the entry that deed `d` opens. */
  lemma Pushed(c: Child, ds: Deeds, d: Deed, entry: Activity)
    requires EntriesTold(c.activity, ds) && Opens(ds + [d], |ds|) && EntryTold(ds + [d], |ds|, entry)
    requires !PatchesTool(d)
    ensures EntriesTold(PushActivity(c, entry).activity, ds + [d])
    ensures NewestTold(PushActivity(c, entry).activity, ds + [d])
  {
    EntryOpened(c.activity, ds, d, entry);
    MoveNext(ds, d);
  }

  lemma NewestRises(ds: Deeds)
    ensures Rising(Newest(Openings(ds)))
    ensures forall i :: 0 <= i < |Newest(Openings(ds))| ==>
      Newest(Openings(ds))[i] < |ds| && Opens(ds, Newest(Openings(ds))[i])
  {
    OpeningsAre(ds);
    var os, kept := Openings(ds), Newest(Openings(ds));
    forall i | 0 <= i < |kept| ensures kept[i] in os {
      assert kept[i] == os[|os| - |kept| + i];
    }
  }

  lemma LaterNewest(os: seq<nat>, i: nat, n: nat)
    requires Rising(os) && i < |Newest(os)| && n < |os| && Newest(os)[i] < os[n]
    ensures
      var k := n - (|os| - |Newest(os)|);
      i < k < |Newest(os)| && Newest(os)[k] == os[n]
  {
    RisingAt(os, |os| - |Newest(os)| + i, n);
  }

  /** Whatever was opened after a kept entry is kept too, after it. */
  lemma LaterKept(ds: Deeds, i: nat, j: nat) returns (k: nat)
    requires i < |Newest(Openings(ds))| && Newest(Openings(ds))[i] < j < |ds| && Opens(ds, j)
    ensures i < k < |Newest(Openings(ds))| && Newest(Openings(ds))[k] == j
  {
    OpeningsAre(ds);
    var os := Openings(ds);
    var n: nat :| n < |os| && os[n] == j;
    LaterNewest(os, i, n);
    k := n - (|os| - |Newest(os)|);
  }

  lemma RisingAt(os: seq<nat>, i: nat, j: nat)
    requires Rising(os) && i < |os| && j < |os| && os[i] < os[j]
    ensures i < j
  {
  }

  /** The newest entry is the only one a chunk can continue. */
  lemma OnlyNewestContinues(ds: Deeds, d: Deed, i: nat)
    requires i < |Newest(Openings(ds))| && Streams(d) && Joins(ds + [d], |ds|)
    ensures Continued(ds + [d], Newest(Openings(ds))[i], |ds|) <==> i == |Newest(Openings(ds))| - 1
  {
    var es, kept := ds + [d], Newest(Openings(ds));
    NewestRises(ds);
    if i < |kept| - 1 {
      var o := kept[|kept| - 1];
      assert kept[i] < o && Opens(ds, o);
      OpensPrefix(ds, d, o);
    } else {
      forall j: nat | kept[i] < j <= |ds| ensures !Opens(es, j) {
        if j < |ds| {
          OpensPrefix(ds, d, j);
          if Opens(ds, j) {
            var k := LaterKept(ds, i, j);
          }
        }
      }
    }
  }

  lemma ChunkAppended(ds: Deeds, d: Deed, o: nat, a: Activity)
    requires o < |ds| && EntryTold(ds, o, a) && a.Message? && Streams(d) && Continued(ds + [d], o, |ds|)
    ensures EntryTold(ds + [d], o, a.(text := Append(a.text, d.update.text.value, ACTIVITY_TEXT_BYTES)))
  {
    ChunksNext(ds, d, o);
    AppendOne(ChunksOf(ds, o), d.update.text.value, ACTIVITY_TEXT_BYTES);
  }

  lemma AppendOne(chunks: seq<Bytes>, text: Bytes, limit: nat)
    ensures AppendAll(chunks + [text], limit) == Append(AppendAll(chunks, limit), text, limit)
  {
    assert (chunks + [text])[..|chunks|] == chunks;
  }

  lemma EntryJoined(ds: Deeds, d: Deed, kept: seq<nat>, activity: seq<Activity>, i: nat)
    requires kept == Newest(Openings(ds)) && AllTold(ds, kept, activity) && i < |kept|
    requires Streams(d) && Joins(ds + [d], |ds|) && activity[|kept| - 1].Message?
    ensures
      var last := activity[|kept| - 1];
      EntryTold(ds + [d], kept[i],
        if i == |kept| - 1 then last.(text := Append(last.text, d.update.text.value, ACTIVITY_TEXT_BYTES))
        else activity[i])
  {
    OnlyNewestContinues(ds, d, i);
    if i == |kept| - 1 {
      ChunkAppended(ds, d, kept[i], activity[i]);
    } else {
      EntryStays(ds, d, kept[i], activity[i]);
    }
  }

  function JoinedEntries(activity: seq<Activity>, text: Bytes): seq<Activity>
    requires activity != [] && activity[|activity| - 1].Message?
  {
    var last := |activity| - 1;
    activity[last := activity[last].(text := Append(activity[last].text, text, ACTIVITY_TEXT_BYTES))]
  }

  lemma ChunkJoined(activity: seq<Activity>, ds: Deeds, d: Deed)
    requires EntriesTold(activity, ds) && Streams(d) && Joins(ds + [d], |ds|)
    requires activity != [] && activity[|activity| - 1].Message?
    ensures EntriesTold(JoinedEntries(activity, d.update.text.value), ds + [d])
  {
    var after, kept := JoinedEntries(activity, d.update.text.value), Newest(Openings(ds));
    OpeningsNext(ds, d);
    assert AllTold(ds + [d], kept, after) by {
      forall i | 0 <= i < |kept| ensures EntryTold(ds + [d], kept[i], after[i]) {
        EntryJoined(ds, d, kept, activity, i);
      }
    }
  }

  lemma NewestJoined(activity: seq<Activity>, ds: Deeds, d: Deed)
    requires Streams(d) && activity != [] && activity[|activity| - 1].Message?
    requires activity[|activity| - 1].messageId == d.update.messageId
    ensures NewestTold(JoinedEntries(activity, d.update.text.value), ds + [d])
  {
    MoveNext(ds, d);
  }

  /** A tool update reaches the newest kept tool of its name, and no other entry. */
  lemma OnlyLastToolUpdates(activity: seq<Activity>, ds: Deeds, d: Deed, i: nat)
    requires EntriesTold(activity, ds) && PatchesTool(d) && i < |activity| && StartsTool(ds[Newest(Openings(ds))[i]])
    ensures Updates(ds + [d], Newest(Openings(ds))[i], |ds|) <==> i == LastTool(activity, d.update.toolCallId.value)
  {
    var es, kept, id := ds + [d], Newest(Openings(ds)), d.update.toolCallId.value;
    var last, o := LastTool(activity, id), kept[i];
    NewestRises(ds);
    assert EntryTold(ds, o, activity[i]);
    if i == last {
      forall j | o < j < |ds| && StartsTool(es[j]) ensures es[j].update.toolCallId != es[o].update.toolCallId {
        assert es[j] == ds[j];
        assert Opens(ds, j);
        var k := LaterKept(ds, i, j);
        assert EntryTold(ds, kept[k], activity[k]);
      }
    } else if activity[i].id == id {
      assert i < last < |activity|;
      assert EntryTold(ds, kept[last], activity[last]);
      assert o < kept[last] && StartsTool(es[kept[last]]);
    }
  }

  lemma ToolPatched(ds: Deeds, d: Deed, o: nat, a: Activity)
    requires o < |ds| && StartsTool(ds[o]) && EntryTold(ds, o, a) && PatchesTool(d) && Updates(ds + [d], o, |ds|)
    ensures EntryTold(ds + [d], o, PatchTool(a, d.update.toolTitle, d.update.status))
  {
    ToolNext(ds, d, o);
    if d.update.toolTitle.Some? {
      LabelClips(d.update.toolTitle.value);
    }
  }

  function PatchedTools(activity: seq<Activity>, u: Update): seq<Activity>
    requires u.ToolCallUpdate? && u.toolCallId.Some?
  {
    var i := LastTool(activity, u.toolCallId.value);
    if i == |activity| then activity else activity[i := PatchTool(activity[i], u.toolTitle, u.status)]
  }

  lemma EntryPatched(ds: Deeds, d: Deed, kept: seq<nat>, activity: seq<Activity>, i: nat)
    requires kept == Newest(Openings(ds)) && AllTold(ds, kept, activity) && PatchesTool(d) && i < |kept|
    ensures EntryTold(ds + [d], kept[i], PatchedTools(activity, d.update)[i])
  {
    assert EntryTold(ds, kept[i], activity[i]);
    if StartsTool(ds[kept[i]]) {
      OnlyLastToolUpdates(activity, ds, d, i);
      if i == LastTool(activity, d.update.toolCallId.value) {
        ToolPatched(ds, d, kept[i], activity[i]);
      } else {
        EntryStays(ds, d, kept[i], activity[i]);
      }
    } else {
      EntryStays(ds, d, kept[i], activity[i]);
    }
  }

  lemma PatchOpensNothing(ds: Deeds, d: Deed)
    requires !Moves(d)
    ensures Openings(ds + [d]) == Openings(ds)
  {
    OpeningsNext(ds, d);
  }

  lemma ToolsPatched(activity: seq<Activity>, ds: Deeds, d: Deed)
    requires EntriesTold(activity, ds) && PatchesTool(d)
    ensures EntriesTold(PatchedTools(activity, d.update), ds + [d])
  {
    var after, kept := PatchedTools(activity, d.update), Newest(Openings(ds));
    PatchOpensNothing(ds, d);
    assert AllTold(ds + [d], kept, after) by {
      forall i | 0 <= i < |kept| ensures EntryTold(ds + [d], kept[i], after[i]) {
        EntryPatched(ds, d, kept, activity, i);
      }
    }
  }

  lemma NewestPatched(activity: seq<Activity>, ds: Deeds, d: Deed)
    requires NewestTold(activity, ds) && PatchesTool(d)
    ensures NewestTold(PatchedTools(activity, d.update), ds + [d])
  {
    MoveNext(ds, d);
  }

  ghost predicate ActivityTold(activity: seq<Activity>, ds: Deeds) {
    EntriesTold(activity, ds) && NewestTold(activity, ds)
  }

  lemma StreamNext(c: Child, ds: Deeds, d: Deed, now: nat)
    requires ActivityTold(c.activity, ds) && Streams(d)
    ensures ActivityTold(After(c, d, now).activity, ds + [d])
  {
    ContinuesIff(c, ds, d);
    if Joins(ds + [d], |ds|) {
      assert After(c, d, now).activity == JoinedEntries(c.activity, d.update.text.value);
      ChunkJoined(c.activity, ds, d);
      NewestJoined(c.activity, ds, d);
    } else {
      assert After(c, d, now) == NewMessage(c, d.update.messageId, d.update.text.value);
      MessageOpened(c, ds, d);
    }
  }

  lemma ToolNextEntries(c: Child, ds: Deeds, d: Deed, now: nat)
    requires ActivityTold(c.activity, ds) && StartsTool(d)
    ensures ActivityTold(After(c, d, now).activity, ds + [d])
  {
    var u := d.update;
    assert After(c, d, now) == NewTool(c, u.toolCallId.value, u.toolTitle, u.kind, u.status);
    ToolOpened(c, ds, d);
  }

  lemma PatchNext(c: Child, ds: Deeds, d: Deed, now: nat)
    requires ActivityTold(c.activity, ds) && PatchesTool(d)
    ensures ActivityTold(After(c, d, now).activity, ds + [d])
  {
    assert After(c, d, now).activity == PatchedTools(c.activity, d.update);
    ToolsPatched(c.activity, ds, d);
    NewestPatched(c.activity, ds, d);
  }

  lemma OtherNext(c: Child, d: Deed, now: nat)
    requires Fits(d) && !Moves(d) && !PatchesTool(d)
    ensures After(c, d, now).activity == c.activity
  {
  }

  /** Every deed leaves the entries as told. */
  lemma EntriesNext(c: Child, ds: Deeds, d: Deed, now: nat)
    requires Fits(d) && ActivityTold(c.activity, ds)
    ensures ActivityTold(After(c, d, now).activity, ds + [d])
  {
    if Streams(d) {
      StreamNext(c, ds, d, now);
    } else if StartsTool(d) {
      ToolNextEntries(c, ds, d, now);
    } else if PatchesTool(d) {
      PatchNext(c, ds, d, now);
    } else {
      OtherNext(c, d, now);
      EntriesStay(c.activity, ds, d);
    }
  }

  /* The last thing named, said with quantifiers. */

  /** The status that deed `k` names for the tool deed `o` started. */
  ghost function StatusAt(ds: Deeds, o: nat, k: nat): Option<Bytes>
    requires o < |ds| && k < |ds| && StartsTool(ds[o])
  {
    if k == o then ds[o].update.status else if Updates(ds, o, k) then ds[k].update.status else None
  }

  ghost function TitleAt(ds: Deeds, o: nat, k: nat): Option<Bytes>
    requires o < |ds| && k < |ds| && StartsTool(ds[o])
  {
    if k == o then ds[o].update.toolTitle else if Updates(ds, o, k) then ds[k].update.toolTitle else None
  }

  /** The status kept is the last one named, or `pending` when none was. */
  lemma {:induction false} StatusIsLast(ds: Deeds, o: nat)
    requires o < |ds| && StartsTool(ds[o])
    ensures
      || (StatusOf(ds, o) == PENDING && forall k: nat :: o <= k < |ds| ==> StatusAt(ds, o, k).None?)
      || exists k: nat ::
           && o <= k < |ds| && StatusAt(ds, o, k) == Some(StatusOf(ds, o))
           && forall j: nat :: k < j < |ds| ==> StatusAt(ds, o, j).None?
    decreases |ds|
  {
    var last := |ds| - 1;
    if o == last || StatusAt(ds, o, last).Some? {
      assert o <= last && StatusAt(ds, o, last) == if o == last then ds[o].update.status else StatusAt(ds, o, last);
    } else {
      var init := ds[..last];
      assert ds == init + [ds[last]];
      StatusIsLast(init, o);
      forall k: nat | o <= k < last ensures StatusAt(ds, o, k) == StatusAt(init, o, k) {
        UpdatesPrefix(init, ds[last], o, k);
      }
      if k: nat :| o <= k < last && StatusAt(init, o, k) == Some(StatusOf(init, o))
                   && forall j: nat :: k < j < last ==> StatusAt(init, o, j).None? {
        assert StatusAt(ds, o, k) == Some(StatusOf(ds, o));
      }
    }
  }

  /** The title kept is the last one named, or the tool's id when none was. */
  lemma {:induction false} TitleIsLast(ds: Deeds, o: nat)
    requires o < |ds| && StartsTool(ds[o])
    ensures
      || (TitleOf(ds, o) == ds[o].update.toolCallId.value
          && forall k: nat :: o <= k < |ds| ==> TitleAt(ds, o, k).None?)
      || exists k: nat ::
           && o <= k < |ds| && TitleAt(ds, o, k) == Some(TitleOf(ds, o))
           && forall j: nat :: k < j < |ds| ==> TitleAt(ds, o, j).None?
    decreases |ds|
  {
    var last := |ds| - 1;
    if o == last || TitleAt(ds, o, last).Some? {
      assert o <= last && TitleAt(ds, o, last) == if o == last then ds[o].update.toolTitle else TitleAt(ds, o, last);
    } else {
      var init := ds[..last];
      assert ds == init + [ds[last]];
      TitleIsLast(init, o);
      forall k: nat | o <= k < last ensures TitleAt(ds, o, k) == TitleAt(init, o, k) {
        UpdatesPrefix(init, ds[last], o, k);
      }
      if k: nat :| o <= k < last && TitleAt(init, o, k) == Some(TitleOf(init, o))
                   && forall j: nat :: k < j < last ==> TitleAt(init, o, j).None? {
        assert TitleAt(ds, o, k) == Some(TitleOf(ds, o));
      }
    }
  }

  /** The chunks of one message: its first, and all that go on with it before another entry opens. */
  lemma {:induction false} ChunksAre(ds: Deeds, o: nat, text: Bytes)
    requires o < |ds| && Streams(ds[o])
    ensures text in ChunksOf(ds, o)
      <==> exists k: nat ::
             k < |ds| && (k == o || Continued(ds, o, k)) && Streams(ds[k]) && ds[k].update.text == Some(text)
    decreases |ds|
  {
    var last := |ds| - 1;
    if o < last {
      var init := ds[..last];
      assert ds == init + [ds[last]];
      ChunksAre(init, o, text);
      forall k: nat | k < last ensures Continued(ds, o, k) <==> Continued(init, o, k) {
        forall j: nat | j <= k ensures Opens(ds, j) <==> Opens(init, j) {
          OpensPrefix(init, ds[last], j);
        }
      }
    }
  }
}
