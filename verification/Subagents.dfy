/** The subagents of one session, updated in place. */
module Subagents {
  import opened Results
  import opened Texts
  import opened SubagentFold

  method FindTool(activity: seq<Activity>, id: Bytes) returns (i: nat)
    ensures i == LastTool(activity, id)
  {
    var k := |activity|;
    while k > 0
      invariant 0 <= k <= |activity|
      invariant forall j :: k <= j < |activity| ==> !(activity[j].Tool? && activity[j].id == id)
    {
      k := k - 1;
      if activity[k].Tool? && activity[k].id == id {
        return k;
      }
    }
    return |activity|;
  }

  /** Appends one entry, dropping the oldest at the cap. */
  method Push(c: Child, entry: Activity) returns (d: Child)
    ensures d == PushActivity(c, entry)
  {
    d := c;
    if |d.activity| == MAX_ACTIVITY {
      d := d.(activity := d.activity[1..]);
      d := d.(omitted := Increment(d.omitted));
    }
    d := d.(activity := d.activity + [entry]);
  }

  /** One update from inside a child; says whether the child must be published again. */
  method FoldInto(c: Child, u: Update, now: nat) returns (d: Child, republish: bool)
    ensures Folded(d, republish) == Fold(c, u, now)
  {
    d, republish := c, false;
    match u {
      case AgentMessageChunk(messageId, Some(text)) =>
        var last := |c.activity| - 1;
        if last >= 0 && c.activity[last].Message? && c.activity[last].messageId == messageId {
          var entry := c.activity[last];
          d := d.(activity := d.activity[last := entry.(text := Append(entry.text, text, ACTIVITY_TEXT_BYTES))]);
          d := d.(lastMessage := Append(d.lastMessage, text, MESSAGE_BYTES));
          d := d.(dirty := true);
          republish := TextDue(c, now);
        } else {
          var entry := Append(EMPTY, text, ACTIVITY_TEXT_BYTES);
          d := d.(lastMessage := Append(EMPTY, text, MESSAGE_BYTES));
          d := d.(messages := Increment(d.messages));
          d := Push(d, Message(messageId, entry));
          republish := true;
        }
      case ToolCall(Some(id), title, kind, status) =>
        d := d.(toolCalls := Increment(d.toolCalls));
        var name := Label(if title.Some? then title.value else id);
        d := Push(d, Tool(id, name, kind, if status.Some? then status.value else PENDING));
        republish := true;
      case ToolCallUpdate(Some(id), title, status) =>
        var i := FindTool(c.activity, id);
        if i < |c.activity| {
          var tool := c.activity[i];
          if status.Some? && status.value != tool.status {
            tool := tool.(status := status.value);
            republish := true;
          }
          if title.Some? {
            var shown := Append(EMPTY, Trim(title.value), LABEL_BYTES);
            if shown != tool.title {
              republish := true;
            }
            tool := tool.(title := shown);
          }
          d := d.(activity := d.activity[i := tool]);
        }
      case ModelUpdate(Some(model)) =>
        if NamesNewModel(c, Trim(model)) {
          d := d.(model := Some(Label(Trim(model))));
          republish := true;
        }
      case _ =>
    }
  }

  class Subagents {
    var children: map<Bytes, Child>
    var order: seq<Bytes>
    var retired: set<Bytes>
    var retiredOrder: seq<Bytes>
    var links: map<LinkKey, Linked>
    var revision: nat

    ghost function View(): State
      reads this
    {
      State(children, order, retired, retiredOrder, links, revision)
    }

    constructor ()
      ensures View() == INITIAL
    {
      children, order, retired, retiredOrder, links, revision := map[], [], {}, [], map[], 0;
    }

    method Publish(id: Bytes, now: nat, nowMs: nat) returns (snapshot: Option<Snapshot>)
      modifies this
      ensures Outcome(View(), [snapshot]) == SubagentFold.Publish(old(View()), id, now, nowMs)
    {
      revision := revision + 1;
      if revision < nowMs {
        revision := nowMs;
      }
      if id !in children {
        return None;
      }
      snapshot := Some(Snapshot(id, revision, BodyOf(children[id])));
      children := children[id := children[id].(dirty := false, lastPublish := Some(now))];
    }

    /** The queue of retired ids without `id`. */
    method Retain(id: Bytes)
      modifies this`retiredOrder
      ensures retiredOrder == Without(old(retiredOrder), id)
    {
      var kept, i := [], 0;
      while i < |retiredOrder|
        invariant i <= |retiredOrder| && retiredOrder == old(retiredOrder)
        invariant kept == Without(retiredOrder[..i], id)
      {
        assert retiredOrder[..i + 1][..i] == retiredOrder[..i];
        if retiredOrder[i] != id {
          kept := kept + [retiredOrder[i]];
        }
        i := i + 1;
      }
      assert retiredOrder[..i] == retiredOrder;
      retiredOrder := kept;
    }

    method FindVictim() returns (i: nat)
      ensures i == Victim(children, order)
    {
      i := 0;
      while i < |order| && order[i] in children && children[order[i]].Working()
        invariant i <= |order| && FirstIdle(children, order, i) == FirstIdle(children, order, 0)
      {
        i := i + 1;
      }
      if i == |order| {
        i := 0;
      }
    }

    method ExpireRetired()
      modifies this`retired, this`retiredOrder
      ensures View() == Expire(old(View()))
    {
      ghost var n := 0;
      while |retiredOrder| > MAX_RETIRED
        invariant 0 <= n <= |old(retiredOrder)| && retiredOrder == old(retiredOrder)[n..]
        invariant n > 0 ==> |retiredOrder| >= MAX_RETIRED
        invariant retired == old(retired) - (set x | x in old(retiredOrder)[..n])
        decreases |retiredOrder|
      {
        assert old(retiredOrder)[..n + 1] == old(retiredOrder)[..n] + [retiredOrder[0]];
        retired := retired - {retiredOrder[0]};
        retiredOrder := retiredOrder[1..];
        n := n + 1;
      }
    }

    method EvictOne()
      modifies this
      ensures View() == Evict(old(View()))
    {
      var i := FindVictim();
      if i < |order| {
        var gone := order[i];
        order := order[..i] + order[i + 1..];
        children := children - {gone};
        links := map k | k in links && links[k].child != gone :: links[k];
        retired := retired + {gone};
        retiredOrder := retiredOrder + [gone];
        ExpireRetired();
      }
    }

    method Insert(id: Bytes, parent: Option<Bytes>)
      modifies this
      ensures View() == SubagentFold.Insert(old(View()), id, parent)
    {
      if id in retired {
        retired := retired - {id};
        Retain(id);
      }
      if |children| >= MAX_CHILDREN {
        EvictOne();
      }
      children := children[id := NewChild(parent)];
      order := order + [id];
    }

    method Announce(parent: Option<Bytes>, u: Update, now: nat, nowMs: nat) returns (snapshots: seq<Option<Snapshot>>)
      requires u.SubagentUpdate?
      modifies this
      ensures Outcome(View(), snapshots) == SubagentFold.Announce(old(View()), parent, u, now, nowMs)
    {
      if u.sessionId.None? || u.sessionId.value == [] || u.sessionId == parent {
        return [];
      }
      var id := u.sessionId.value;
      if id !in children {
        Insert(id, parent);
      }
      children := children[id := Announced(children[id], u, now)];
      var snapshot := Publish(id, now, nowMs);
      return [snapshot];
    }

    /** A message of the root transcript: the child it belongs to, if any. */
    method LinkMessage(transcript: Bytes, u: Update) returns (child: Option<Bytes>)
      requires u.IsMessage()
      modifies this
      ensures LinkOutcome(View(), child) == SubagentFold.LinkMessage(old(View()), transcript, u)
    {
      if u.messageId.None? {
        return None;
      }
      var key := LinkKey(transcript, u.messageId.value);
      var linked;
      if key in links {
        linked := links[key];
      } else if u.SessionMessage? {
        if u.recipient.Some? && u.recipient.value in children {
          linked := Linked(u.recipient.value, Prompt);
        } else if u.sender.Some? && u.sender.value in children {
          linked := Linked(u.sender.value, Reply);
        } else {
          return None;
        }
        links := links[key := linked];
      } else {
        return None;
      }
      if linked.child !in children {
        return None;
      }
      children := children[linked.child := WithMessage(children[linked.child], linked.link, u)];
      return Some(linked.child);
    }

    method AbsorbChildMessage(id: Bytes, u: Update) returns (republish: bool)
      requires u.IsMessage()
      modifies this
      ensures Absorbed(View(), republish) == AbsorbMessage(old(View()), id, u)
    {
      if u.messageId.None? {
        return false;
      }
      var key := LinkKey(id, u.messageId.value);
      var link;
      if key in links {
        link := links[key].link;
      } else if u.SessionMessage? {
        if u.sender == Some(id) {
          link := Reply;
        } else if u.recipient == Some(id) || u.recipient.None? {
          link := Prompt;
        } else {
          return false;
        }
        links := links[key := Linked(id, link)];
      } else {
        return false;
      }
      if id !in children {
        return false;
      }
      var before := children[id];
      children := children[id := WithMessage(before, link, u)];
      return children[id] != before;
    }

    method Absorb(id: Bytes, u: Update, now: nat) returns (republish: bool)
      modifies this
      ensures Absorbed(View(), republish) == SubagentFold.Absorb(old(View()), id, u, now)
    {
      if u.IsMessage() {
        republish := AbsorbChildMessage(id, u);
      } else if id !in children {
        return false;
      } else {
        var d, again := FoldInto(children[id], u, now);
        children := children[id := d];
        return again;
      }
    }

    method PublishEach(ids: seq<Bytes>, now: nat, nowMs: nat) returns (snapshots: seq<Option<Snapshot>>)
      modifies this
      ensures Outcome(View(), snapshots) == PublishAll(old(View()), ids, now, nowMs)
    {
      snapshots := [];
      var i := 0;
      while i < |ids|
        invariant i <= |ids|
        invariant Outcome(View(), snapshots) == PublishAll(old(View()), ids[..i], now, nowMs)
      {
        assert ids[..i + 1][..i] == ids[..i];
        var snapshot := Publish(ids[i], now, nowMs);
        snapshots := snapshots + [snapshot];
        i := i + 1;
      }
      assert ids[..i] == ids;
    }

    /** Publishes, in order, every dirty child whose text is due. */
    method Due(now: nat, nowMs: nat) returns (snapshots: seq<Option<Snapshot>>)
      modifies this
      ensures Outcome(View(), snapshots) == SubagentFold.Due(old(View()), now, nowMs)
    {
      var ready, i := [], 0;
      while i < |order|
        invariant i <= |order| && View() == old(View())
        invariant ready == DueIds(View(), order[..i], now)
      {
        assert order[..i + 1][..i] == order[..i];
        var id := order[i];
        if id in children && children[id].dirty && TextDue(children[id], now) {
          ready := ready + [id];
        }
        i := i + 1;
      }
      assert order[..i] == order;
      snapshots := PublishEach(ready, now, nowMs);
    }

    /** Running children silent for too long, published once as no longer reporting. */
    method Quiet(now: nat, nowMs: nat) returns (snapshots: seq<Option<Snapshot>>)
      modifies this
      ensures Outcome(View(), snapshots) == SubagentFold.Quiet(old(View()), now, nowMs)
    {
      var silent, i := [], 0;
      while i < |order|
        invariant i <= |order| && View() == old(View())
        invariant silent == SilentIds(View(), order[..i], now)
      {
        assert order[..i + 1][..i] == order[..i];
        if IsSilent(State(children, order, retired, retiredOrder, links, revision), order[i], now) {
          silent := silent + [order[i]];
        }
        i := i + 1;
      }
      assert order[..i] == order;
      snapshots, i := [], 0;
      while i < |silent|
        invariant i <= |silent|
        invariant Outcome(View(), snapshots) == SilenceAll(old(View()), silent[..i], now, nowMs)
      {
        assert silent[..i + 1][..i] == silent[..i];
        var id := silent[i];
        if id in children {
          children := children[id := children[id].(quiet := true)];
        }
        var snapshot := Publish(id, now, nowMs);
        snapshots := snapshots + [snapshot];
        i := i + 1;
      }
      assert silent[..i] == silent;
    }

    /** The parent's turn ended: the silence of every working child is measured from now. */
    method ParentTurnEnded(now: nat)
      modifies this`children
      ensures View() == SubagentFold.ParentTurnEnded(old(View()), now)
    {
      children := map id | id in children ::
        if children[id].Working() then children[id].(lastTraffic := Some(now)) else children[id];
    }

    /** One notification of session `id`; `root` says it belongs to the root timeline. */
    method Route(id: Bytes, u: Update, now: nat, nowMs: nat) returns (root: bool, snapshots: seq<Option<Snapshot>>)
      modifies this
      ensures Routed(View(), root, snapshots) == SubagentFold.Route(old(View()), id, u, now, nowMs)
    {
      root, snapshots := false, [];
      if id in children {
        snapshots := RouteToChild(id, u, now, nowMs);
        return;
      }
      if id in retired {
        return;
      }
      if u.SubagentUpdate? {
        snapshots := Announce(None, u, now, nowMs);
        return;
      }
      if u.IsMessage() {
        var child := LinkMessage(id, u);
        if child.Some? {
          var snapshot := Publish(child.value, now, nowMs);
          return false, [snapshot];
        }
      }
      root := true;
      snapshots := Due(now, nowMs);
    }

    method RouteToChild(id: Bytes, u: Update, now: nat, nowMs: nat) returns (snapshots: seq<Option<Snapshot>>)
      requires id in children
      modifies this
      ensures Outcome(View(), snapshots) == RouteChild(old(View()), id, u, now, nowMs)
    {
      var resumed := children[id].quiet;
      children := children[id := children[id].(lastTraffic := Some(now), quiet := false)];
      snapshots := [];
      if u.SubagentUpdate? {
        snapshots := Announce(Some(id), u, now, nowMs);
        if resumed {
          var snapshot := Publish(id, now, nowMs);
          snapshots := snapshots + [snapshot];
        }
      } else {
        var republish := Absorb(id, u, now);
        if republish || resumed {
          var snapshot := Publish(id, now, nowMs);
          snapshots := snapshots + [snapshot];
        }
      }
    }
  }
}
