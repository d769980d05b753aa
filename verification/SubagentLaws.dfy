/** What every step of the subagent fold keeps, and what its snapshots mirror. */
module SubagentLaws {
  import opened Results
  import opened Texts
  import opened SubagentFold

  /* One child: its counters and how its snapshots evolve. */

  function Least(a: nat, b: nat): nat {
    if a < b then a else b
  }

  /** Every message and tool call is either shown or counted as omitted; the counters saturate. */
  predicate Conserved(c: Child) {
    && |c.activity| <= MAX_ACTIVITY
    && (c.omitted > 0 ==> |c.activity| == MAX_ACTIVITY)
    && c.omitted <= U32_MAX && c.toolCalls <= U32_MAX && c.messages <= U32_MAX
    && (c.toolCalls < U32_MAX && c.messages < U32_MAX ==>
          && |c.activity| <= c.toolCalls + c.messages
          && c.omitted == Least(U32_MAX, c.toolCalls + c.messages - |c.activity|))
  }

  /** The number of activity entries before the end of the snapshot. */
  function Total(b: Body): nat {
    b.omitted + |b.activity|
  }

  /** The entry at an absolute position. */
  function At(b: Body, p: nat): Entry
    requires b.omitted <= p < Total(b)
  {
    b.activity[p - b.omitted]
  }

  /** How one entry may change: a tool keeps its identity; only the newest message grows, at its end. */
  predicate SameEntry(x: Entry, y: Entry, newest: bool) {
    if x.ToolEntry? then y.ToolEntry? && y.id == x.id && y.kind == x.kind
    else y.MessageEntry? && x.text <= y.text && (newest || x.text == y.text)
  }

  /** `b` is a later view of the activity `a` shows: a position names the same entry in both. */
  ghost predicate Evolves(a: Body, b: Body) {
    && a.omitted <= b.omitted
    && (b.omitted < U32_MAX ==>
          && Total(a) <= Total(b)
          && forall p: nat :: a.omitted <= p < Total(a) && b.omitted <= p < Total(b) ==>
               SameEntry(At(a, p), At(b, p), p + 1 == Total(a)))
  }

  lemma EvolvesSame(a: Body, b: Body)
    requires a.activity == b.activity && a.omitted == b.omitted
    ensures Evolves(a, b)
  {
  }

  lemma EvolvesTransitive(a: Body, b: Body, c: Body)
    requires Evolves(a, b) && Evolves(b, c)
    ensures Evolves(a, c)
  {
    if c.omitted < U32_MAX {
      forall p: nat | a.omitted <= p < Total(a) && c.omitted <= p < Total(c)
        ensures SameEntry(At(a, p), At(c, p), p + 1 == Total(a))
      {
        assert SameEntry(At(a, p), At(b, p), p + 1 == Total(a));
        assert SameEntry(At(b, p), At(c, p), p + 1 == Total(b));
      }
    }
  }

  lemma AppendExtends(t: Text, text: Bytes, limit: nat)
    ensures t.value <= Append(t, text, limit).value
  {
  }

  lemma PushKeeps(c: Child, entry: Activity)
    requires |c.activity| <= MAX_ACTIVITY && c.omitted <= U32_MAX
    requires c.omitted > 0 ==> |c.activity| == MAX_ACTIVITY
    ensures Evolves(BodyOf(c), BodyOf(PushActivity(c, entry)))
  {
    var a, b := BodyOf(c), BodyOf(PushActivity(c, entry));
    forall p: nat | b.omitted < U32_MAX && a.omitted <= p < Total(a) && b.omitted <= p < Total(b)
      ensures SameEntry(At(a, p), At(b, p), p + 1 == Total(a))
    {
      assert At(a, p) == At(b, p);
    }
  }

  ghost predicate Keeps(c: Child, d: Child) {
    Conserved(d) && Evolves(BodyOf(c), BodyOf(d))
  }

  /** A counted entry is pushed. */
  lemma CountConserves(c: Child, d: Child, entry: Activity)
    requires Conserved(c) && d.activity == c.activity && d.omitted == c.omitted
    requires
      || (d.toolCalls == Increment(c.toolCalls) && d.messages == c.messages)
      || (d.messages == Increment(c.messages) && d.toolCalls == c.toolCalls)
    ensures Conserved(PushActivity(d, entry))
  {
  }

  lemma CountEvolves(c: Child, d: Child, entry: Activity)
    requires Conserved(c) && d.activity == c.activity && d.omitted == c.omitted
    ensures Evolves(BodyOf(c), BodyOf(PushActivity(d, entry)))
  {
    PushKeeps(d, entry);
    EvolvesSame(BodyOf(c), BodyOf(d));
    EvolvesTransitive(BodyOf(c), BodyOf(d), BodyOf(PushActivity(d, entry)));
  }

  lemma NewMessageKeeps(c: Child, messageId: Option<Bytes>, text: Bytes)
    requires Conserved(c)
    ensures Keeps(c, NewMessage(c, messageId, text))
  {
    var d := c.(lastMessage := Append(EMPTY, text, MESSAGE_BYTES), messages := Increment(c.messages));
    var entry := Message(messageId, Append(EMPTY, text, ACTIVITY_TEXT_BYTES));
    CountConserves(c, d, entry);
    CountEvolves(c, d, entry);
    assert NewMessage(c, messageId, text) == PushActivity(d, entry);
  }

  lemma NewToolKeeps(c: Child, id: Bytes, title: Option<Bytes>, kind: Option<Bytes>, status: Option<Bytes>)
    requires Conserved(c)
    ensures Keeps(c, NewTool(c, id, title, kind, status))
  {
    var d := c.(toolCalls := Increment(c.toolCalls));
    var name := Label(if title.Some? then title.value else id);
    var entry := Tool(id, name, kind, if status.Some? then status.value else PENDING);
    CountConserves(c, d, entry);
    CountEvolves(c, d, entry);
    assert NewTool(c, id, title, kind, status) == PushActivity(d, entry);
  }

  /** Replacing one entry by one that may follow it. */
  lemma ReplaceKeeps(c: Child, d: Child, i: nat)
    requires i < |c.activity| == |d.activity| && d.omitted == c.omitted
    requires forall k :: 0 <= k < |c.activity| && k != i ==> d.activity[k] == c.activity[k]
    requires SameEntry(Shown(c.activity[i]), Shown(d.activity[i]), i + 1 == |c.activity|)
    ensures Evolves(BodyOf(c), BodyOf(d))
  {
    var a, b := BodyOf(c), BodyOf(d);
    forall p: nat | a.omitted <= p < Total(a) && b.omitted <= p < Total(b)
      ensures SameEntry(At(a, p), At(b, p), p + 1 == Total(a))
    {
      if p - c.omitted != i {
        assert At(a, p) == At(b, p);
      }
    }
  }

  lemma ChunkKeeps(c: Child, text: Bytes)
    requires Conserved(c) && c.activity != [] && c.activity[|c.activity| - 1].Message?
    ensures Keeps(c, AppendChunk(c, text))
  {
    var last := |c.activity| - 1;
    AppendExtends(c.activity[last].text, text, ACTIVITY_TEXT_BYTES);
    ReplaceKeeps(c, AppendChunk(c, text), last);
  }

  lemma PatchKeeps(c: Child, i: nat, title: Option<Bytes>, status: Option<Bytes>)
    requires Conserved(c) && i < |c.activity| && c.activity[i].Tool?
    ensures Keeps(c, c.(activity := c.activity[i := PatchTool(c.activity[i], title, status)]))
  {
    ReplaceKeeps(c, c.(activity := c.activity[i := PatchTool(c.activity[i], title, status)]), i);
  }

  lemma SameKeeps(c: Child, d: Child)
    requires Conserved(c) && d.activity == c.activity && d.omitted == c.omitted
    requires d.toolCalls == c.toolCalls && d.messages == c.messages
    ensures Keeps(c, d)
  {
    EvolvesSame(BodyOf(c), BodyOf(d));
  }

  /** Every update folded into a child conserves its counts and moves its activity only forward. */
  lemma FoldKeeps(c: Child, u: Update, now: nat)
    requires Conserved(c)
    ensures Keeps(c, Fold(c, u, now).child)
  {
    if u.AgentMessageChunk? && u.text.Some? {
      if Continues(c, u.messageId) {
        ChunkKeeps(c, u.text.value);
      } else {
        NewMessageKeeps(c, u.messageId, u.text.value);
      }
    } else if u.ToolCall? && u.toolCallId.Some? {
      NewToolKeeps(c, u.toolCallId.value, u.toolTitle, u.kind, u.status);
    } else if u.ToolCallUpdate? && u.toolCallId.Some? && LastTool(c.activity, u.toolCallId.value) < |c.activity| {
      PatchKeeps(c, LastTool(c.activity, u.toolCallId.value), u.toolTitle, u.status);
    } else {
      OthersKeep(c, u, now);
    }
  }

  /** Only messages and tools change the activity. */
  lemma OthersKeep(c: Child, u: Update, now: nat)
    requires Conserved(c)
    requires u.AgentMessageChunk? ==> u.text.None?
    requires u.ToolCall? ==> u.toolCallId.None?
    requires u.ToolCallUpdate? && u.toolCallId.Some? ==> LastTool(c.activity, u.toolCallId.value) == |c.activity|
    ensures Keeps(c, Fold(c, u, now).child)
  {
    SameKeeps(c, Fold(c, u, now).child);
  }

  /* What a published snapshot says of the child it shows. */

  predicate PrefixOf(a: Option<Bytes>, b: Option<Bytes>) {
    a.None? || (b.Some? && a.value <= b.value)
  }

  /** The child has streamed text that `b` does not show yet, and nothing else. */
  predicate Lags(b: Body, c: Child) {
    var now := BodyOf(c);
    var n := |now.activity|;
    && b == now.(activity := b.activity, result := b.result)
    && n > 0 && |b.activity| == n && b.activity[..n - 1] == now.activity[..n - 1]
    && b.activity[n - 1].MessageEntry? && now.activity[n - 1].MessageEntry?
    && b.activity[n - 1].text <= now.activity[n - 1].text
    && (b.result == now.result || (Get(c.reply).None? && c.state == Some(Idle) && PrefixOf(b.result, now.result)))
  }

  predicate Mirrors(b: Body, c: Child) {
    if c.dirty then Lags(b, c) else b == BodyOf(c)
  }

  ghost predicate KeepsMirror(c: Child, d: Child) {
    forall b: Body :: Mirrors(b, c) ==> Mirrors(b, d)
  }

  lemma AppendKeepsMirror(c: Child, text: Bytes, b: Body)
    requires c.activity != [] && c.activity[|c.activity| - 1].Message? && Mirrors(b, c)
    ensures Lags(b, AppendChunk(c, text))
  {
    var d := AppendChunk(c, text);
    var n := |c.activity|;
    AppendExtends(c.activity[n - 1].text, text, ACTIVITY_TEXT_BYTES);
    AppendExtends(c.lastMessage, text, MESSAGE_BYTES);
    assert BodyOf(d).activity[..n - 1] == BodyOf(c).activity[..n - 1];
  }

  /** An update the fold does not republish shows nothing, except streamed text. */
  lemma FoldKeepsMirror(c: Child, u: Update, now: nat)
    requires !Fold(c, u, now).republish
    ensures KeepsMirror(c, Fold(c, u, now).child)
  {
    if u.AgentMessageChunk? && u.text.Some? {
      forall b: Body | Mirrors(b, c) ensures Mirrors(b, Fold(c, u, now).child) {
        AppendKeepsMirror(c, u.text.value, b);
      }
    } else if u.ToolCallUpdate? && u.toolCallId.Some? {
      var i := LastTool(c.activity, u.toolCallId.value);
      if i < |c.activity| {
        assert c.activity[i := c.activity[i]] == c.activity;
      }
    }
  }

  /* The books: which children are kept, in what order, and which are retired. */

  predicate NoRepeats(ids: seq<Bytes>) {
    forall i, j :: 0 <= i < j < |ids| ==> ids[i] != ids[j]
  }

  /** `ids` names the members of `all`, each once. */
  ghost predicate Lists(ids: seq<Bytes>, all: set<Bytes>) {
    && NoRepeats(ids)
    && forall id :: id in ids <==> id in all
  }

  ghost predicate Books(s: State) {
    && Lists(s.order, s.children.Keys)
    && Lists(s.retiredOrder, s.retired)
    && s.children.Keys !! s.retired
    && |s.order| <= MAX_CHILDREN
    && |s.retiredOrder| <= MAX_RETIRED
    && (forall k :: k in s.links ==> s.links[k].child in s.children)
  }

  lemma {:induction false} ListsLength(ids: seq<Bytes>, all: set<Bytes>)
    requires Lists(ids, all)
    ensures |ids| == |all|
  {
    if ids == [] {
      assert all == {};
    } else {
      var last := |ids| - 1;
      assert ids[last] in all;
      forall id ensures id in ids[..last] <==> id in all - {ids[last]} {
        if id in all && id != ids[last] {
          assert id in ids;
        }
      }
      ListsLength(ids[..last], all - {ids[last]});
    }
  }

  lemma {:induction false} WithoutLists(ids: seq<Bytes>, all: set<Bytes>, id: Bytes)
    requires Lists(ids, all)
    ensures Lists(Without(ids, id), all - {id}) && |Without(ids, id)| <= |ids|
    decreases ids
  {
    if ids != [] {
      var last := |ids| - 1;
      forall x ensures x in ids[..last] <==> x in all - {ids[last]} {
        if x in all && x != ids[last] {
          assert x in ids;
        }
      }
      assert ids[last] in all;
      WithoutLists(ids[..last], all - {ids[last]}, id);
      if ids[last] == id {
        assert all - {id} - {id} == all - {id};
      } else {
        AddLists(Without(ids[..last], id), all - {ids[last]} - {id}, ids[last]);
        assert all - {ids[last]} - {id} + {ids[last]} == all - {id};
      }
    }
  }

  lemma RemoveLists(ids: seq<Bytes>, all: set<Bytes>, i: nat)
    requires Lists(ids, all) && i < |ids|
    ensures Lists(ids[..i] + ids[i + 1..], all - {ids[i]})
  {
    var left := ids[..i] + ids[i + 1..];
    forall k | 0 <= k < |left| ensures left[k] == ids[if k < i then k else k + 1] {
    }
    forall x ensures x in left <==> x in all - {ids[i]} {
      if x in all && x != ids[i] {
        assert x in ids;
        var k :| 0 <= k < |ids| && ids[k] == x;
        assert left[if k < i then k else k - 1] == x;
      }
      if x in left {
        var k :| 0 <= k < |left| && left[k] == x;
        assert ids[if k < i then k else k + 1] in ids;
      }
    }
  }

  lemma AddLists(ids: seq<Bytes>, all: set<Bytes>, id: Bytes)
    requires Lists(ids, all) && id !in all
    ensures Lists(ids + [id], all + {id})
  {
  }

  lemma ExpireLists(ids: seq<Bytes>, all: set<Bytes>, n: nat)
    requires Lists(ids, all) && n <= |ids|
    ensures Lists(ids[n..], all - (set x | x in ids[..n]))
  {
    assert ids == ids[..n] + ids[n..];
    forall x | x in ids[n..] ensures x !in ids[..n] {
      var k :| 0 <= k < |ids| - n && ids[n..][k] == x;
      assert forall j :: 0 <= j < n ==> ids[..n][j] == ids[j] != ids[n + k];
    }
  }

  lemma VictimExists(s: State)
    requires Books(s) && |s.children| >= MAX_CHILDREN
    ensures s.order != [] && Victim(s.children, s.order) < |s.order|
  {
    ListsLength(s.order, s.children.Keys);
  }

  lemma EvictBooks(s: State)
    requires Books(s) && |s.children| >= MAX_CHILDREN
    ensures Books(Evict(s)) && |Evict(s).order| + 1 == |s.order|
    ensures Evict(s).children.Keys == s.children.Keys - {s.order[Victim(s.children, s.order)]}
    ensures forall x :: x in Evict(s).retired ==> x in s.retired || x in s.children
  {
    VictimExists(s);
    var i := Victim(s.children, s.order);
    var gone := s.order[i];
    assert gone in s.children;
    RemoveLists(s.order, s.children.Keys, i);
    AddLists(s.retiredOrder, s.retired, gone);
    var full := s.retiredOrder + [gone];
    if |full| > MAX_RETIRED {
      ExpireLists(full, s.retired + {gone}, |full| - MAX_RETIRED);
    }
  }

  lemma UnretiredBooks(s: State, id: Bytes)
    requires Books(s)
    ensures Books(Unretired(s, id)) && id !in Unretired(s, id).retired
  {
    WithoutLists(s.retiredOrder, s.retired, id);
  }

  lemma RoomyBooks(s: State)
    requires Books(s)
    ensures Books(Roomy(s)) && |Roomy(s).order| < MAX_CHILDREN
    ensures Roomy(s).children.Keys <= s.children.Keys
    ensures forall x :: x in Roomy(s).retired ==> x in s.retired || x in s.children
  {
    ListsLength(s.order, s.children.Keys);
    if |s.children| >= MAX_CHILDREN {
      EvictBooks(s);
    }
  }

  lemma AdmitBooks(s: State, id: Bytes, parent: Option<Bytes>)
    requires Books(s) && |s.order| < MAX_CHILDREN && id !in s.children && id !in s.retired
    ensures Books(Admit(s, id, parent))
  {
    AddLists(s.order, s.children.Keys, id);
    assert s.children[id := NewChild(parent)].Keys == s.children.Keys + {id};
  }

  /** A new id is admitted into the books. */
  lemma InsertBooks(s: State, id: Bytes, parent: Option<Bytes>)
    requires Books(s) && id !in s.children
    ensures Books(Insert(s, id, parent))
  {
    UnretiredBooks(s, id);
    RoomyBooks(Unretired(s, id));
    AdmitBooks(Roomy(Unretired(s, id)), id, parent);
  }

  /* Traces: a state with everything published on the way to it. */

  datatype Step =
    | Routing(id: Bytes, update: Update, now: nat, nowMs: nat)
    | Dueing(now: nat, nowMs: nat)
    | Quieting(now: nat, nowMs: nat)
    | TurnEnding(now: nat)

  type Log = seq<Option<Snapshot>>

  /** `born` is the length of the log when a child was last announced as new. */
  datatype Trace = Trace(state: State, log: Log, born: map<Bytes, nat>)

  const START := Trace(INITIAL, [], map[])

  function Effect(s: State, step: Step): Outcome {
    match step
    case Routing(id, u, now, nowMs) => var r := Route(s, id, u, now, nowMs); Outcome(r.state, r.snapshots)
    case Dueing(now, nowMs) => Due(s, now, nowMs)
    case Quieting(now, nowMs) => Quiet(s, now, nowMs)
    case TurnEnding(now) => Outcome(ParentTurnEnded(s, now), [])
  }

  function Extended(t: Trace, r: Outcome): Trace {
    Trace(r.state, t.log + r.snapshots,
          map id | id in r.state.children :: if id in t.state.children && id in t.born then t.born[id] else |t.log|)
  }

  function Apply(t: Trace, step: Step): Trace {
    Extended(t, Effect(t.state, step))
  }

  function Exec(t: Trace, steps: seq<Step>): Trace {
    if steps == [] then t else Apply(Exec(t, steps[..|steps| - 1]), steps[|steps| - 1])
  }

  /** The last snapshot of `id` in the log. */
  function Latest(log: Log, id: Bytes): Option<Snapshot> {
    if log == [] then None
    else
      var last := |log| - 1;
      if log[last].Some? && log[last].value.id == id then log[last] else Latest(log[..last], id)
  }

  ghost predicate Rises(log: Log, revision: nat) {
    && (forall i :: 0 <= i < |log| && log[i].Some? ==> log[i].value.revision <= revision)
    && (forall i, j :: 0 <= i < j < |log| && log[i].Some? && log[j].Some? ==>
      log[i].value.revision < log[j].value.revision)
  }

  /** The snapshots of `id` from `born` on evolve from one to the next, and the last to `now`. */
  ghost predicate Chains(log: Log, born: nat, id: Bytes, now: Body) {
    && (forall i :: born <= i < |log| && log[i].Some? && log[i].value.id == id ==> Evolves(log[i].value.body, now))
    && (forall i, j ::
      born <= i < j < |log| && log[i].Some? && log[j].Some? && log[i].value.id == id && log[j].value.id == id ==>
          Evolves(log[i].value.body, log[j].value.body))
  }

  ghost predicate Mirrored(log: Log, id: Bytes, c: Child) {
    Latest(log, id).Some? && Mirrors(Latest(log, id).value.body, c)
  }

  /** What holds of child `id` after `log`; a pending one awaits its publication. */
  ghost predicate Tracked(log: Log, born: nat, id: Bytes, c: Child, pending: bool) {
    && Conserved(c)
    && born <= |log|
    && Chains(log, born, id, BodyOf(c))
    && (pending || Mirrored(log, id, c))
  }

  ghost predicate AllTracked(t: Trace, pending: set<Bytes>) {
    && t.born.Keys == t.state.children.Keys
    && forall id :: id in t.state.children ==> Tracked(t.log, t.born[id], id, t.state.children[id], id in pending)
  }

  ghost predicate Inv(t: Trace, pending: set<Bytes>) {
    && Books(t.state)
    && Rises(t.log, t.state.revision)
    && AllTracked(t, pending)
  }

  /* Each change of a trace keeps the invariant. */

  function WithChild(s: State, id: Bytes, c: Child): State {
    s.(children := s.children[id := c])
  }

  lemma WithChildBooks(s: State, id: Bytes, c: Child)
    requires Books(s) && id in s.children
    ensures Books(WithChild(s, id, c)) && WithChild(s, id, c).children.Keys == s.children.Keys
  {
    assert WithChild(s, id, c).children.Keys == s.children.Keys;
  }

  lemma ChainsMove(log: Log, born: nat, id: Bytes, a: Body, b: Body)
    requires Chains(log, born, id, a) && Evolves(a, b)
    ensures Chains(log, born, id, b)
  {
    forall i | born <= i < |log| && log[i].Some? && log[i].value.id == id ensures Evolves(log[i].value.body, b) {
      EvolvesTransitive(log[i].value.body, a, b);
    }
  }

  /** A child changes; unless its snapshots still mirror it, it is now pending. */
  lemma ChildKeeps(t: Trace, id: Bytes, d: Child, pending: set<Bytes>, after: set<Bytes>)
    requires Inv(t, pending) && id in t.state.children && Keeps(t.state.children[id], d)
    requires pending <= after && (id in after || KeepsMirror(t.state.children[id], d))
    ensures Inv(t.(state := WithChild(t.state, id, d)), after)
  {
    WithChildBooks(t.state, id, d);
    var c := t.state.children[id];
    assert Tracked(t.log, t.born[id], id, c, id in pending);
    ChainsMove(t.log, t.born[id], id, BodyOf(c), BodyOf(d));
    assert Tracked(t.log, t.born[id], id, d, id in after);
    var s := WithChild(t.state, id, d);
    forall x | x in s.children ensures Tracked(t.log, t.born[x], x, s.children[x], x in after) {
      assert x != id ==> Tracked(t.log, t.born[x], x, t.state.children[x], x in pending);
    }
  }

  lemma TrackedSkips(log: Log, born: nat, id: Bytes, c: Child, pending: bool, next: Option<Snapshot>)
    requires Tracked(log, born, id, c, pending) && !(next.Some? && next.value.id == id)
    ensures Tracked(log + [next], born, id, c, pending)
  {
    assert (log + [next])[..|log|] == log;
  }

  lemma TrackedPublished(log: Log, born: nat, id: Bytes, c: Child, pending: bool, revision: nat, now: nat)
    requires Tracked(log, born, id, c, pending)
    ensures Tracked(log + [Some(Snapshot(id, revision, BodyOf(c)))], born, id, Stamped(c, now), false)
  {
    assert BodyOf(Stamped(c, now)) == BodyOf(c);
    EvolvesSame(BodyOf(c), BodyOf(c));
  }

  lemma RisesNext(log: Log, revision: nat, next: Option<Snapshot>, later: nat)
    requires Rises(log, revision) && revision < later && (next.Some? ==> next.value.revision == later)
    ensures Rises(log + [next], later)
  {
  }

  function Published(t: Trace, id: Bytes, now: nat, nowMs: nat): Trace {
    var r := Publish(t.state, id, now, nowMs);
    Trace(r.state, t.log + r.snapshots, t.born)
  }

  lemma PublishBooks(s: State, id: Bytes, now: nat, nowMs: nat)
    requires Books(s)
    ensures Books(Publish(s, id, now, nowMs).state)
    ensures Publish(s, id, now, nowMs).state.children.Keys == s.children.Keys
  {
    if id in s.children {
      assert Publish(s, id, now, nowMs).state.children.Keys == s.children.Keys;
    }
  }

  lemma PublishTracks(t: Trace, id: Bytes, now: nat, nowMs: nat, pending: set<Bytes>, after: set<Bytes>, x: Bytes)
    requires Inv(t, pending) && x in t.state.children && pending <= after + {id}
    ensures
      var r := Publish(t.state, id, now, nowMs);
      x in r.state.children && Tracked(t.log + r.snapshots, t.born[x], x, r.state.children[x], x in after)
  {
    var r := Publish(t.state, id, now, nowMs);
    assert Tracked(t.log, t.born[x], x, t.state.children[x], x in pending);
    if x == id {
      TrackedPublished(t.log, t.born[x], x, t.state.children[x], x in pending, r.state.revision, now);
    } else {
      TrackedSkips(t.log, t.born[x], x, t.state.children[x], x in pending, r.snapshots[0]);
    }
  }

  lemma PublishKeeps(t: Trace, id: Bytes, now: nat, nowMs: nat, pending: set<Bytes>, after: set<Bytes>)
    requires Inv(t, pending) && pending <= after + {id}
    ensures Inv(Published(t, id, now, nowMs), after)
  {
    var u := Published(t, id, now, nowMs);
    PublishBooks(t.state, id, now, nowMs);
    assert Rises(u.log, u.state.revision) by {
      RisesNext(t.log, t.state.revision, Publish(t.state, id, now, nowMs).snapshots[0], u.state.revision);
    }
    assert AllTracked(u, after) by {
      forall x | x in u.state.children
        ensures Tracked(u.log, u.born[x], x, u.state.children[x], x in after)
      {
        PublishTracks(t, id, now, nowMs, pending, after, x);
      }
    }
  }

  function Inserted(t: Trace, id: Bytes, parent: Option<Bytes>): Trace
    requires t.born.Keys == t.state.children.Keys
  {
    var s := Insert(t.state, id, parent);
    Trace(s, t.log, map x | x in s.children :: if x in t.born then t.born[x] else |t.log|)
  }

  lemma InsertedChildren(s: State, id: Bytes, parent: Option<Bytes>)
    ensures var r := Insert(s, id, parent).children;
      id in r && r[id] == NewChild(parent) && forall x :: x in r && x != id ==> x in s.children && r[x] == s.children[x]
  {
  }

  lemma TrackedNew(log: Log, id: Bytes, parent: Option<Bytes>)
    ensures Tracked(log, |log|, id, NewChild(parent), true)
  {
  }

  lemma InsertTracks(t: Trace, id: Bytes, parent: Option<Bytes>, pending: set<Bytes>, x: Bytes)
    requires Inv(t, pending) && id !in t.state.children && x in Insert(t.state, id, parent).children
    ensures
      var u := Inserted(t, id, parent);
      Tracked(t.log, u.born[x], x, u.state.children[x], x in pending + {id})
  {
    InsertedChildren(t.state, id, parent);
    if x == id {
      TrackedNew(t.log, id, parent);
    } else {
      assert Tracked(t.log, t.born[x], x, t.state.children[x], x in pending);
    }
  }

  lemma InsertKeeps(t: Trace, id: Bytes, parent: Option<Bytes>, pending: set<Bytes>)
    requires Inv(t, pending) && id !in t.state.children
    ensures Inv(Inserted(t, id, parent), pending + {id})
  {
    InsertBooks(t.state, id, parent);
    var u := Inserted(t, id, parent);
    assert AllTracked(u, pending + {id}) by {
      forall x | x in u.state.children
        ensures Tracked(u.log, u.born[x], x, u.state.children[x], x in pending + {id})
      {
        InsertTracks(t, id, parent, pending, x);
      }
    }
    assert u.state.revision == t.state.revision by {
      InsertedRevision(t.state, id, parent);
    }
  }

  lemma InsertedRevision(s: State, id: Bytes, parent: Option<Bytes>)
    ensures Insert(s, id, parent).revision == s.revision
  {
  }

  lemma LinkKeeps(t: Trace, links: map<LinkKey, Linked>, pending: set<Bytes>)
    requires Inv(t, pending) && forall k :: k in links ==> links[k].child in t.state.children
    ensures Inv(t.(state := t.state.(links := links)), pending)
  {
    var u := t.(state := t.state.(links := links));
    forall x | x in u.state.children ensures Tracked(u.log, u.born[x], x, u.state.children[x], x in pending) {
      assert Tracked(t.log, t.born[x], x, t.state.children[x], x in pending);
    }
  }
}
