/** What the subagent fold computes: its state, its updates, and each operation on a state. */
module SubagentFold {
  import opened Results
  import opened Texts

  const MAX_CHILDREN: nat := 128
  const MAX_RETIRED: nat := 1024
  const MAX_ACTIVITY: nat := 24
  const ACTIVITY_TEXT_BYTES: nat := 600
  const MESSAGE_BYTES: nat := 8 * 1024
  const LABEL_BYTES: nat := 240
  /** Milliseconds. */
  const TEXT_PUBLISH_INTERVAL: nat := 1000
  const QUIET_AFTER: nat := 600000
  const U32_MAX: nat := 0xFFFF_FFFF

  /* Updates, as their fields read from the message. */

  datatype Patch = Keep | Clear | Put(text: Bytes)

  datatype WorkState = Running | RequiresAction | Idle | OtherState(name: Bytes)

  datatype Usage = Usage(total: nat, input: Option<nat>, output: Option<nat>)

  datatype StatePatch = StatePatch(
    state: Option<WorkState>,
    stopReason: Option<Bytes>,
    error: Option<Bytes>,
    usage: Option<Usage>,
    onlyModel: Option<Bytes>)

  datatype Update =
    | SubagentUpdate(sessionId: Option<Bytes>, title: Patch, description: Patch, cancel: Option<bool>,
      patch: Option<StatePatch>)
    | SessionMessage(messageId: Option<Bytes>, sender: Option<Bytes>, recipient: Option<Bytes>, content: Option<Bytes>)
    | SessionMessageChunk(messageId: Option<Bytes>, text: Option<Bytes>)
    | AgentMessageChunk(messageId: Option<Bytes>, text: Option<Bytes>)
    | ToolCall(toolCallId: Option<Bytes>, toolTitle: Option<Bytes>, kind: Option<Bytes>, status: Option<Bytes>)
    | ToolCallUpdate(toolCallId: Option<Bytes>, toolTitle: Option<Bytes>, status: Option<Bytes>)
    | ModelUpdate(model: Option<Bytes>)
    | OtherUpdate
  {
    predicate IsMessage() {
      SessionMessage? || SessionMessageChunk?
    }
  }

  /* State. */

  datatype Activity =
    | Message(messageId: Option<Bytes>, text: Text)
    | Tool(id: Bytes, title: Text, kind: Option<Bytes>, status: Bytes)

  datatype Link = Prompt | Reply

  datatype LinkKey = LinkKey(transcript: Bytes, messageId: Bytes)

  datatype Linked = Linked(child: Bytes, link: Link)

  datatype Child = Child(
    parent: Option<Bytes>,
    title: Option<Text>,
    description: Option<Text>,
    cancel: bool,
    state: Option<WorkState>,
    stopReason: Option<Bytes>,
    error: Option<Text>,
    prompt: Text,
    reply: Text,
    lastMessage: Text,
    toolCalls: nat,
    messages: nat,
    activity: seq<Activity>,
    omitted: nat,
    lastPublish: Option<nat>,
    dirty: bool,
    model: Option<Text>,
    usage: Option<Usage>,
    lastTraffic: Option<nat>,
    quiet: bool)
  {
    predicate Working() {
      state == Some(Running) || state == Some(RequiresAction)
    }

    function Result(): Option<Bytes> {
      if Get(reply).Some? then Get(reply)
      else if state == Some(Idle) then Get(lastMessage)
      else None
    }
  }

  function NewChild(parent: Option<Bytes>): Child {
    Child(parent, None, None, false, None, None, None, EMPTY, EMPTY, EMPTY, 0, 0, [], 0, None, false, None, None,
      None, false)
  }

  datatype State = State(
    children: map<Bytes, Child>,
    order: seq<Bytes>,
    retired: set<Bytes>,
    retiredOrder: seq<Bytes>,
    links: map<LinkKey, Linked>,
    revision: nat)
  {
    predicate Owns(id: Bytes) {
      id in children || id in retired
    }
  }

  const INITIAL := State(map[], [], {}, [], map[], 0)

  /* Snapshots. */

  datatype Entry =
    | MessageEntry(text: Bytes)
    | ToolEntry(id: Bytes, title: Bytes, kind: Option<Bytes>, status: Bytes)

  /** Everything a snapshot shows of a child. */
  datatype Body = Body(
    parent: Option<Bytes>,
    title: Option<Bytes>,
    description: Option<Bytes>,
    state: Option<WorkState>,
    stopReason: Option<Bytes>,
    error: Option<Bytes>,
    cancellable: bool,
    prompt: Option<Bytes>,
    result: Option<Bytes>,
    toolCalls: nat,
    messages: nat,
    activity: seq<Entry>,
    omitted: nat,
    model: Option<Bytes>,
    usage: Option<Usage>,
    reporting: bool)

  datatype Snapshot = Snapshot(id: Bytes, revision: nat, body: Body)

  function Shown(a: Activity): Entry {
    match a
    case Message(_, text) => MessageEntry(text.value)
    case Tool(id, title, kind, status) => ToolEntry(id, title.value, kind, status)
  }

  function ShownAll(activity: seq<Activity>): (entries: seq<Entry>)
    ensures |entries| == |activity|
    ensures forall i :: 0 <= i < |activity| ==> entries[i] == Shown(activity[i])
  {
    seq(|activity|, i requires 0 <= i < |activity| => Shown(activity[i]))
  }

  function ValueOf(t: Option<Text>): Option<Bytes> {
    if t.Some? then Some(t.value.value) else None
  }

  function BodyOf(c: Child): Body {
    Body(c.parent, ValueOf(c.title), ValueOf(c.description), c.state, c.stopReason, ValueOf(c.error),
         c.cancel && c.Working(), Get(c.prompt), c.Result(), c.toolCalls, c.messages, ShownAll(c.activity), c.omitted,
         ValueOf(c.model), c.usage, !c.quiet)
  }

  /* One child. */

  function Increment(n: nat): nat {
    if n < U32_MAX then n + 1 else U32_MAX
  }

  function Label(value: Bytes): Text {
    Append(EMPTY, Trim(value), LABEL_BYTES)
  }

  function Patched(current: Option<Text>, patch: Patch): Option<Text> {
    match patch
    case Keep => current
    case Clear => None
    case Put(text) => Some(Label(text))
  }

  function PushActivity(c: Child, entry: Activity): Child {
    if |c.activity| == MAX_ACTIVITY
    then c.(activity := c.activity[1..] + [entry], omitted := Increment(c.omitted))
    else c.(activity := c.activity + [entry])
  }

  function PatchState(c: Child, patch: StatePatch): Child {
    var resumed := patch.state == Some(Running) && c.state == Some(Idle);
    var cleared := if resumed then c.(reply := EMPTY, lastMessage := EMPTY, usage := None) else c;
    var counted :=
      if patch.state != Some(Idle) then cleared
      else cleared.(
        usage := if patch.usage.Some? then patch.usage else cleared.usage,
        model :=
          if patch.onlyModel.Some? && cleared.model.None? then Some(Label(patch.onlyModel.value)) else cleared.model);
    counted.(
      state := patch.state,
      stopReason := patch.stopReason,
      error := if patch.error.Some? then Some(Label(patch.error.value)) else None)
  }

  function Announced(c: Child, u: Update, now: nat): Child
    requires u.SubagentUpdate?
  {
    var labelled := c.(
      lastTraffic := Some(now),
      quiet := false,
      title := Patched(c.title, u.title),
      description := Patched(c.description, u.description),
      cancel := if u.cancel.Some? then u.cancel.value else c.cancel);
    if u.patch.Some? then PatchState(labelled, u.patch.value) else labelled
  }

  function Elapsed(now: nat, at: nat): nat {
    if at <= now then now - at else 0
  }

  /** A published text may be followed by new text only after the interval. */
  predicate TextDue(c: Child, now: nat) {
    c.lastPublish.None? || Elapsed(now, c.lastPublish.value) >= TEXT_PUBLISH_INTERVAL
  }

  predicate Continues(c: Child, messageId: Option<Bytes>) {
    c.activity != [] && c.activity[|c.activity| - 1].Message? && c.activity[|c.activity| - 1].messageId == messageId
  }

  function AppendChunk(c: Child, text: Bytes): Child
    requires c.activity != [] && c.activity[|c.activity| - 1].Message?
  {
    var last := |c.activity| - 1;
    var entry := c.activity[last];
    c.(activity := c.activity[last := entry.(text := Append(entry.text, text, ACTIVITY_TEXT_BYTES))],
       lastMessage := Append(c.lastMessage, text, MESSAGE_BYTES),
       dirty := true)
  }

  function NewMessage(c: Child, messageId: Option<Bytes>, text: Bytes): Child {
    PushActivity(
      c.(lastMessage := Append(EMPTY, text, MESSAGE_BYTES), messages := Increment(c.messages)),
      Message(messageId, Append(EMPTY, text, ACTIVITY_TEXT_BYTES)))
  }

  function NewTool(c: Child, id: Bytes, title: Option<Bytes>, kind: Option<Bytes>, status: Option<Bytes>): Child {
    PushActivity(
      c.(toolCalls := Increment(c.toolCalls)),
      Tool(id, Label(if title.Some? then title.value else id), kind, if status.Some? then status.value else PENDING))
  }

  /** "pending". */
  const PENDING: Bytes := [0x70, 0x65, 0x6E, 0x64, 0x69, 0x6E, 0x67]

  /** The last entry of tool `id`, or the length when there is none. */
  function LastTool(activity: seq<Activity>, id: Bytes): (i: nat)
    ensures i < |activity| ==> activity[i].Tool? && activity[i].id == id
    ensures forall k :: i < k < |activity| ==> !(activity[k].Tool? && activity[k].id == id)
    ensures i >= |activity| ==>
      i == |activity| && forall k :: 0 <= k < |activity| ==> !(activity[k].Tool? && activity[k].id == id)
  {
    if activity == [] then 0
    else
      var last := |activity| - 1;
      if activity[last].Tool? && activity[last].id == id then last
      else
        var i := LastTool(activity[..last], id);
        if i == last then last + 1 else i
  }

  function PatchTool(t: Activity, title: Option<Bytes>, status: Option<Bytes>): Activity
    requires t.Tool?
  {
    t.(status := if status.Some? then status.value else t.status,
       title := if title.Some? then Append(EMPTY, Trim(title.value), LABEL_BYTES) else t.title)
  }

  predicate NamesNewModel(c: Child, model: Bytes) {
    model != [] && !(c.model.Some? && c.model.value.value == model)
  }

  function SetModel(c: Child, model: Bytes): Child {
    if NamesNewModel(c, Trim(model)) then c.(model := Some(Label(Trim(model)))) else c
  }

  datatype Folded = Folded(child: Child, republish: bool)

  /** An update from inside the child that is not a delegation message. */
  function Fold(c: Child, u: Update, now: nat): Folded {
    match u
    case AgentMessageChunk(messageId, Some(text)) =>
      if Continues(c, messageId) then Folded(AppendChunk(c, text), TextDue(c, now))
      else Folded(NewMessage(c, messageId, text), true)
    case ToolCall(Some(id), title, kind, status) => Folded(NewTool(c, id, title, kind, status), true)
    case ToolCallUpdate(Some(id), title, status) =>
      var i := LastTool(c.activity, id);
      if i == |c.activity| then Folded(c, false)
      else
        var patched := PatchTool(c.activity[i], title, status);
        Folded(c.(activity := c.activity[i := patched]), patched != c.activity[i])
    case ModelUpdate(Some(model)) => Folded(SetModel(c, model), NamesNewModel(c, Trim(model)))
    case _ => Folded(c, false)
  }

  /** The text a delegation message leaves in the field it is linked to. */
  function Messaged(t: Text, u: Update): Text
    requires u.IsMessage()
  {
    match u
    case SessionMessageChunk(_, text) => if text.Some? then Append(t, text.value, MESSAGE_BYTES) else t
    case SessionMessage(_, _, _, content) => if content.Some? then Append(EMPTY, content.value, MESSAGE_BYTES) else t
  }

  function WithMessage(c: Child, link: Link, u: Update): Child
    requires u.IsMessage()
  {
    match link
    case Prompt => c.(prompt := Messaged(c.prompt, u))
    case Reply => c.(reply := Messaged(c.reply, u))
  }

  /* The children of one session. */

  datatype Outcome = Outcome(state: State, snapshots: seq<Option<Snapshot>>)

  datatype Routed = Routed(state: State, root: bool, snapshots: seq<Option<Snapshot>>)

  function Stamped(c: Child, now: nat): Child {
    c.(dirty := false, lastPublish := Some(now))
  }

  /** `None` is published for a child that is gone. */
  function Publish(s: State, id: Bytes, now: nat, nowMs: nat): Outcome {
    var revision := if nowMs > s.revision + 1 then nowMs else s.revision + 1;
    var stamped := s.(revision := revision);
    if id !in s.children then Outcome(stamped, [None])
    else
      var c := s.children[id];
      Outcome(
        stamped.(children := s.children[id := Stamped(c, now)]),
        [Some(Snapshot(id, revision, BodyOf(c)))])
  }

  function Without(ids: seq<Bytes>, id: Bytes): seq<Bytes> {
    if ids == [] then []
    else
      var last := |ids| - 1;
      if ids[last] == id then Without(ids[..last], id) else Without(ids[..last], id) + [ids[last]]
  }

  /** The position of the oldest child that may go: the first that is not working, else the first. */
  function Victim(children: map<Bytes, Child>, order: seq<Bytes>): nat {
    var i := FirstIdle(children, order, 0);
    if i < |order| then i else 0
  }

  function FirstIdle(children: map<Bytes, Child>, order: seq<Bytes>, i: nat): (r: nat)
    requires i <= |order|
    ensures i <= r <= |order|
    ensures r < |order| ==> !(order[r] in children && children[order[r]].Working())
    ensures forall k :: i <= k < r ==> order[k] in children && children[order[k]].Working()
    decreases |order| - i
  {
    if i == |order| || !(order[i] in children && children[order[i]].Working()) then i
    else FirstIdle(children, order, i + 1)
  }

  /** The retired ids, newest last, down to the cap. */
  function Expire(s: State): State {
    if |s.retiredOrder| <= MAX_RETIRED then s
    else
      var n := |s.retiredOrder| - MAX_RETIRED;
      s.(retired := s.retired - (set x | x in s.retiredOrder[..n]), retiredOrder := s.retiredOrder[n..])
  }

  function Removed(s: State, i: nat): State
    requires i < |s.order|
  {
    var gone := s.order[i];
    s.(
      order := s.order[..i] + s.order[i + 1..],
      children := s.children - {gone},
      links := map k | k in s.links && s.links[k].child != gone :: s.links[k],
      retired := s.retired + {gone},
      retiredOrder := s.retiredOrder + [gone])
  }

  function Evict(s: State): State {
    if s.order == [] then s else Expire(Removed(s, Victim(s.children, s.order)))
  }

  function Unretired(s: State, id: Bytes): State {
    if id in s.retired then s.(retired := s.retired - {id}, retiredOrder := Without(s.retiredOrder, id)) else s
  }

  function Roomy(s: State): State {
    if |s.children| >= MAX_CHILDREN then Evict(s) else s
  }

  function Admit(s: State, id: Bytes, parent: Option<Bytes>): State {
    s.(children := s.children[id := NewChild(parent)], order := s.order + [id])
  }

  function Insert(s: State, id: Bytes, parent: Option<Bytes>): State {
    Admit(Roomy(Unretired(s, id)), id, parent)
  }

  function Announce(s: State, parent: Option<Bytes>, u: Update, now: nat, nowMs: nat): Outcome
    requires u.SubagentUpdate?
  {
    if u.sessionId.None? || u.sessionId.value == [] || u.sessionId == parent then Outcome(s, [])
    else
      var id := u.sessionId.value;
      var known := if id in s.children then s else Insert(s, id, parent);
      Publish(known.(children := known.children[id := Announced(known.children[id], u, now)]), id, now, nowMs)
  }

  datatype Linking = NoLink | NewLink(linked: Linked) | OldLink(linked: Linked)

  /** The child a message of the root transcript belongs to. */
  function RootLink(s: State, key: LinkKey, u: Update): Linking
    requires u.IsMessage()
  {
    if key in s.links then OldLink(s.links[key])
    else if u.SessionMessageChunk? then NoLink
    else if u.recipient.Some? && u.recipient.value in s.children then NewLink(Linked(u.recipient.value, Prompt))
    else if u.sender.Some? && u.sender.value in s.children then NewLink(Linked(u.sender.value, Reply))
    else NoLink
  }

  /** The field a message of child `id`'s own transcript belongs to. */
  function ChildLink(s: State, key: LinkKey, u: Update): Linking
    requires u.IsMessage()
  {
    if key in s.links then OldLink(Linked(key.transcript, s.links[key].link))
    else if u.SessionMessageChunk? then NoLink
    else if u.sender == Some(key.transcript) then NewLink(Linked(key.transcript, Reply))
    else if u.recipient == Some(key.transcript) || u.recipient.None? then NewLink(Linked(key.transcript, Prompt))
    else NoLink
  }

  function WithLink(s: State, key: LinkKey, linking: Linking): State {
    if linking.NewLink? then s.(links := s.links[key := linking.linked]) else s
  }

  datatype LinkOutcome = LinkOutcome(state: State, child: Option<Bytes>)

  function LinkMessage(s: State, transcript: Bytes, u: Update): LinkOutcome
    requires u.IsMessage()
  {
    if u.messageId.None? then LinkOutcome(s, None)
    else
      var key := LinkKey(transcript, u.messageId.value);
      var linking := RootLink(s, key, u);
      var linked := WithLink(s, key, linking);
      if linking.NoLink? || linking.linked.child !in s.children then LinkOutcome(linked, None)
      else
        var id := linking.linked.child;
        LinkOutcome(linked.(children := s.children[id := WithMessage(s.children[id], linking.linked.link, u)]),
          Some(id))
  }

  datatype Absorbed = Absorbed(state: State, republish: bool)

  function AbsorbMessage(s: State, id: Bytes, u: Update): Absorbed
    requires u.IsMessage()
  {
    if u.messageId.None? then Absorbed(s, false)
    else
      var key := LinkKey(id, u.messageId.value);
      var linking := ChildLink(s, key, u);
      var linked := WithLink(s, key, linking);
      if linking.NoLink? || id !in s.children then Absorbed(linked, false)
      else
        var c := WithMessage(s.children[id], linking.linked.link, u);
        Absorbed(linked.(children := s.children[id := c]), c != s.children[id])
  }

  function Absorb(s: State, id: Bytes, u: Update, now: nat): Absorbed {
    if u.IsMessage() then AbsorbMessage(s, id, u)
    else if id !in s.children then Absorbed(s, false)
    else
      var folded := Fold(s.children[id], u, now);
      Absorbed(s.(children := s.children[id := folded.child]), folded.republish)
  }

  function Touch(s: State, id: Bytes, now: nat): State
    requires id in s.children
  {
    s.(children := s.children[id := s.children[id].(lastTraffic := Some(now), quiet := false)])
  }

  function RouteChild(s: State, id: Bytes, u: Update, now: nat, nowMs: nat): Outcome
    requires id in s.children
  {
    var resumed := s.children[id].quiet;
    var touched := Touch(s, id, now);
    if u.SubagentUpdate? then
      var announced := Announce(touched, Some(id), u, now, nowMs);
      if !resumed then announced
      else
        var published := Publish(announced.state, id, now, nowMs);
        Outcome(published.state, announced.snapshots + published.snapshots)
    else
      var absorbed := Absorb(touched, id, u, now);
      if absorbed.republish || resumed then Publish(absorbed.state, id, now, nowMs)
      else Outcome(absorbed.state, [])
  }

  function PublishAll(s: State, ids: seq<Bytes>, now: nat, nowMs: nat): Outcome {
    if ids == [] then Outcome(s, [])
    else
      var last := |ids| - 1;
      var before := PublishAll(s, ids[..last], now, nowMs);
      var published := Publish(before.state, ids[last], now, nowMs);
      Outcome(published.state, before.snapshots + published.snapshots)
  }

  predicate IsDue(s: State, id: Bytes, now: nat) {
    id in s.children && s.children[id].dirty && TextDue(s.children[id], now)
  }

  predicate IsSilent(s: State, id: Bytes, now: nat) {
    && id in s.children
    && !s.children[id].quiet
    && s.children[id].state == Some(Running)
    && s.children[id].lastTraffic.Some?
    && Elapsed(now, s.children[id].lastTraffic.value) >= QUIET_AFTER
  }

  function DueIds(s: State, ids: seq<Bytes>, now: nat): seq<Bytes> {
    if ids == [] then []
    else
      var last := |ids| - 1;
      DueIds(s, ids[..last], now) + if IsDue(s, ids[last], now) then [ids[last]] else []
  }

  function SilentIds(s: State, ids: seq<Bytes>, now: nat): seq<Bytes> {
    if ids == [] then []
    else
      var last := |ids| - 1;
      SilentIds(s, ids[..last], now) + if IsSilent(s, ids[last], now) then [ids[last]] else []
  }

  function Due(s: State, now: nat, nowMs: nat): Outcome {
    PublishAll(s, DueIds(s, s.order, now), now, nowMs)
  }

  function Silence(s: State, id: Bytes): State {
    if id in s.children then s.(children := s.children[id := s.children[id].(quiet := true)]) else s
  }

  function SilenceAll(s: State, ids: seq<Bytes>, now: nat, nowMs: nat): Outcome {
    if ids == [] then Outcome(s, [])
    else
      var last := |ids| - 1;
      var before := SilenceAll(s, ids[..last], now, nowMs);
      var published := Publish(Silence(before.state, ids[last]), ids[last], now, nowMs);
      Outcome(published.state, before.snapshots + published.snapshots)
  }

  function Quiet(s: State, now: nat, nowMs: nat): Outcome {
    SilenceAll(s, SilentIds(s, s.order, now), now, nowMs)
  }

  function ParentTurnEnded(s: State, now: nat): State {
    s.(children := map id | id in s.children ::
      if s.children[id].Working() then s.children[id].(lastTraffic := Some(now)) else s.children[id])
  }

  /** One notification of session `id`; `root` says it belongs to the root timeline. */
  function Route(s: State, id: Bytes, u: Update, now: nat, nowMs: nat): Routed {
    if id in s.children then
      var r := RouteChild(s, id, u, now, nowMs);
      Routed(r.state, false, r.snapshots)
    else if id in s.retired then Routed(s, false, [])
    else if u.SubagentUpdate? then
      var r := Announce(s, None, u, now, nowMs);
      Routed(r.state, false, r.snapshots)
    else
      var linked := if u.IsMessage() then LinkMessage(s, id, u) else LinkOutcome(s, None);
      if linked.child.Some? then
        var r := Publish(linked.state, linked.child.value, now, nowMs);
        Routed(r.state, false, r.snapshots)
      else
        var r := Due(linked.state, now, nowMs);
        Routed(r.state, true, r.snapshots)
  }
}
