/** Complete snapshots of one session's subagents, turned into what a bridge client still has to be told. */
module Projection {
  import opened Results
  import opened Texts
  import opened SubagentFold
  import opened Words
  import opened Iteration

  /* Reading a snapshot. */

  function Trimmed(value: Option<Bytes>): Option<Bytes> {
    if value.Some? && Trim(value.value) != [] then Some(Trim(value.value)) else None
  }

  predicate IsWorking(b: Body) {
    b.state == Some(Running) || b.state == Some(RequiresAction)
  }

  datatype Status =
    | NoLongerReporting | AtWork | NeedsYourAnswer | Stopped | Failed | Declined | HitItsLimit | Done | Ended

  function StatusOf(b: Body): Status {
    if b.state == Some(Running) then (if b.reporting then AtWork else NoLongerReporting)
    else if b.state == Some(RequiresAction) then NeedsYourAnswer
    else if b.state == Some(Idle) then
      var reason := if b.stopReason.Some? then b.stopReason.value else [];
      if reason == CANCELLED then Stopped
      else if reason == ERROR then Failed
      else if reason == REFUSAL then Declined
      else if reason == MAX_TOKENS || reason == MAX_TURN_REQUESTS then HitItsLimit
      else if Trimmed(b.error).Some? then Failed
      else Done
    else Ended
  }

  function StatusLabel(s: Status): Bytes {
    match s
    case NoLongerReporting => NO_LONGER_REPORTING
    case AtWork => WORKING
    case NeedsYourAnswer => NEEDS_YOUR_ANSWER
    case Stopped => STOPPED
    case Failed => FAILED
    case Declined => DECLINED
    case HitItsLimit => HIT_ITS_LIMIT
    case Done => DONE
    case Ended => ENDED
  }

  datatype LegacyStatus = InProgress | LegacyFailed | Completed

  function LegacyStatusOf(b: Body): LegacyStatus {
    match StatusOf(b)
    case AtWork | NeedsYourAnswer | NoLongerReporting => InProgress
    case Stopped | Failed | Declined | HitItsLimit => LegacyFailed
    case Done | Ended => Completed
  }

  /* The legacy form: one tool call, updated in place. */

  function Decimal(n: nat): Bytes {
    if n < 10 then [0x30 + n] else Decimal(n / 10) + [0x30 + n % 10]
  }

  function Plural(n: nat, one: Bytes, many: Bytes): Bytes {
    Decimal(n) + if n == 1 then one else many
  }

  function Join(parts: seq<Bytes>, separator: Bytes): Bytes {
    if parts == [] then []
    else if |parts| == 1 then parts[0]
    else Join(parts[..|parts| - 1], separator) + separator + parts[|parts| - 1]
  }

  function LineEnd(s: Bytes): (i: nat)
    ensures i <= |s|
  {
    if s == [] || s[0] == 0x0A then 0 else 1 + LineEnd(s[1..])
  }

  /** The first line that is not blank, trimmed. */
  function FirstLine(s: Bytes): Option<Bytes>
    decreases |s|
  {
    var i := LineEnd(s);
    if Trim(s[..i]) != [] then Some(Trim(s[..i]))
    else if i < |s| then FirstLine(s[i + 1..])
    else None
  }

  function Optional(part: Option<Bytes>, prefix: Bytes): seq<Bytes> {
    if part.Some? then [prefix + part.value] else []
  }

  function NowLine(b: Body): Option<Bytes> {
    if !IsWorking(b) || b.activity == [] then None
    else
      var last := b.activity[|b.activity| - 1];
      FirstLine(if last.ToolEntry? then last.title else last.text)
  }

  function Progress(b: Body): Bytes {
    Join(
      [StatusLabel(StatusOf(b))]
      + Optional(Trimmed(b.model), [])
      + (if b.toolCalls > 0 then [Plural(b.toolCalls, TOOL_CALL, TOOL_CALLS)] else [])
      + (if b.messages > 0 then [Plural(b.messages, MESSAGE, MESSAGES)] else []),
      MIDDLE_DOT)
  }

  function LegacyText(b: Body): Bytes {
    Join(
      Optional(Trimmed(b.prompt), ASKED)
      + [Progress(b)]
      + Optional(NowLine(b), NOW)
      + (if IsWorking(b) then [] else Optional(Trimmed(b.result), RESULT_IS))
      + Optional(Trimmed(b.error), ERROR_IS),
      PARAGRAPH)
  }

  datatype LegacyFields = LegacyFields(title: Bytes, status: LegacyStatus, text: Bytes)

  function LegacyFieldsOf(b: Body): LegacyFields {
    var title :=
      if Trimmed(b.title).Some? then Trimmed(b.title).value
      else if Trimmed(b.description).Some? then Trimmed(b.description).value
      else SUBAGENT;
    LegacyFields(SUBAGENT_IS + title, LegacyStatusOf(b), LegacyText(b))
  }

  /* The standard form. */

  datatype StandardState =
    | StandardRunning
    | StandardRequiresAction
    | StandardIdle(stopReason: Option<Bytes>, error: Option<Bytes>)
    | StandardUnknown

  function StandardStateOf(b: Body): StandardState {
    if b.state == Some(Running) && b.reporting then StandardRunning
    else if b.state == Some(RequiresAction) then StandardRequiresAction
    else if b.state == Some(Idle) then
      if Trimmed(b.error).Some? then StandardIdle(Some(ERROR), Trimmed(b.error))
      else StandardIdle(Trimmed(b.stopReason), None)
    else StandardUnknown
  }

  datatype Announcement = Announcement(title: Option<Bytes>, description: Option<Bytes>, cancel: bool,
                                       state: StandardState)

  function AnnouncementOf(b: Body): Announcement {
    Announcement(Trimmed(b.title), Trimmed(b.description), b.cancellable, StandardStateOf(b))
  }

  /**
   * What the client is sent. A chunk carries only its text; `at` records the entry it belongs to.
   * An absent label of a subagent update leaves the client's label unchanged.
   */
  datatype Notice =
    | SubagentNotice(session: Bytes, child: Bytes, announcement: Announcement)
    | PromptNotice(session: Bytes, child: Bytes, text: Bytes)
    | ResultNotice(session: Bytes, child: Bytes, text: Bytes)
    | ToolNotice(session: Bytes, id: Bytes, title: Bytes, status: Bytes, kind: Option<Bytes>)
    | ToolStatusNotice(session: Bytes, id: Bytes, status: Bytes)
    | ChunkNotice(session: Bytes, at: nat, text: Bytes)
    | LegacyCall(session: Bytes, child: Bytes, fields: LegacyFields, description: Option<Bytes>, prompt: Option<Bytes>)
    | LegacyUpdate(session: Bytes, child: Bytes, fields: LegacyFields)

  predicate IsToolKind(kind: Bytes) {
    kind in {READ, EDIT, DELETE, MOVE, SEARCH, EXECUTE,
             THINK, FETCH, SWITCH_MODE, OTHER}
  }

  function KnownKind(kind: Option<Bytes>): Option<Bytes> {
    if kind.Some? && IsToolKind(kind.value) then kind else None
  }

  /** The fields of a snapshot as the bridge reads them. */
  datatype Reading = Reading(
    parent: Option<Bytes>,
    announcement: Announcement,
    prompt: Option<Bytes>,
    working: bool,
    result: Option<Bytes>,
    legacy: LegacyFields)

  function Read(b: Body): Reading {
    Reading(Trimmed(b.parent), AnnouncementOf(b), Trimmed(b.prompt), IsWorking(b), Trimmed(b.result), LegacyFieldsOf(b))
  }

  datatype SentMessage = SentMessage(at: nat, text: Bytes)

  /** What was already sent about one child. */
  datatype Projected = Projected(
    revision: nat,
    legacy: Option<LegacyFields>,
    announced: Option<Announcement>,
    prompt: Option<Bytes>,
    result: Option<Bytes>,
    activity: nat,
    tools: map<Bytes, Bytes>,
    message: Option<SentMessage>)

  const FRESH := Projected(0, None, None, None, None, 0, map[], None)

  datatype Sending = Sending(projected: Projected, notices: seq<Notice>)

  function Max(a: nat, b: nat): nat {
    if a < b then b else a
  }

  /** The text of a message entry that was not sent yet, if any. */
  function Delta(p: Projected, position: nat, text: Bytes): Option<Bytes> {
    if p.message.Some? && p.message.value.at == position then
      if p.message.value.text <= text && |p.message.value.text| < |text|
      then Some(text[|p.message.value.text|..]) else None
    else if position >= p.activity && text != [] then Some(text)
    else None
  }

  /** At most one notice is sent for one entry. */
  datatype EntrySending = EntrySending(projected: Projected, notice: Option<Notice>)

  function SendTool(p: Projected, child: Bytes, position: nat, e: Entry): EntrySending
    requires e.ToolEntry?
  {
    if e.id in p.tools then
      EntrySending(p.(tools := p.tools[e.id := e.status]),
                   if p.tools[e.id] == e.status then None else Some(ToolStatusNotice(child, e.id, e.status)))
    else if position >= p.activity then
      EntrySending(p.(tools := p.tools[e.id := e.status]),
        Some(ToolNotice(child, e.id, e.title, e.status, KnownKind(e.kind))))
    else EntrySending(p, None)
  }

  function SendMessage(p: Projected, child: Bytes, position: nat, text: Bytes): EntrySending {
    var delta := Delta(p, position, text);
    if delta.Some?
    then EntrySending(p.(message := Some(SentMessage(position, text))), Some(ChunkNotice(child, position, delta.value)))
    else EntrySending(p, None)
  }

  function SendEntry(p: Projected, child: Bytes, position: nat, e: Entry): EntrySending {
    var sent := if e.ToolEntry? then SendTool(p, child, position, e) else SendMessage(p, child, position, e.text);
    sent.(projected := sent.projected.(activity := Max(sent.projected.activity, position + 1)))
  }

  function AsSeq(notice: Option<Notice>): seq<Notice> {
    if notice.Some? then [notice.value] else []
  }

  function SendNext(before: Sending, child: Bytes, position: nat, e: Entry): Sending {
    var sent := SendEntry(before.projected, child, position, e);
    Sending(sent.projected, before.notices + AsSeq(sent.notice))
  }

  function SendStep(child: Bytes, b: Body): (Sending, nat) -> Sending {
    (before: Sending, k: nat) => if k < |b.activity| then SendNext(before, child, b.omitted + k, b.activity[k])
      else before
  }

  /** The first `n` entries of the snapshot's activity. */
  function SendActivity(p: Projected, child: Bytes, b: Body, n: nat): Sending {
    Iterate(SendStep(child, b), Sending(p, []), n)
  }

  function SendAnnouncement(p: Projected, parent: Bytes, child: Bytes, announcement: Announcement): Sending {
    if p.announced == Some(announcement) then Sending(p, [])
    else Sending(p.(announced := Some(announcement)), [SubagentNotice(parent, child, announcement)])
  }

  function SendPrompt(p: Projected, parent: Bytes, child: Bytes, prompt: Option<Bytes>): Sending {
    if prompt.None? || p.prompt == prompt then Sending(p, [])
    else Sending(p.(prompt := prompt), [PromptNotice(parent, child, prompt.value)])
  }

  function SendResult(p: Projected, parent: Bytes, child: Bytes, working: bool, result: Option<Bytes>): Sending {
    if working || result.None? || p.result == result then Sending(p, [])
    else Sending(p.(result := result), [ResultNotice(parent, child, result.value)])
  }

  function Standard(p: Projected, root: Bytes, child: Bytes, r: Reading, b: Body): Sending {
    var parent := if r.parent.Some? then r.parent.value else root;
    var announced := SendAnnouncement(p, parent, child, r.announcement);
    var prompted := SendPrompt(announced.projected, parent, child, r.prompt);
    var active := SendActivity(prompted.projected, child, b, |b.activity|);
    var resulted := SendResult(active.projected, parent, child, r.working, r.result);
    Sending(resulted.projected, announced.notices + prompted.notices + active.notices + resulted.notices)
  }

  function Legacy(p: Projected, root: Bytes, child: Bytes, r: Reading): Sending {
    if p.legacy == Some(r.legacy) then Sending(p, [])
    else
      Sending(p.(legacy := Some(r.legacy)),
              [if p.legacy.None? then LegacyCall(root, child, r.legacy, r.announcement.description, r.prompt)
               else LegacyUpdate(root, child, r.legacy)])
  }

  /** A snapshot older than the one already projected yields nothing. */
  function Send(p: Projected, root: Bytes, child: Bytes, revision: nat, r: Reading, b: Body, standard: bool): Sending {
    if revision < p.revision then Sending(p, [])
    else if standard then Standard(p.(revision := revision), root, child, r, b)
    else Legacy(p.(revision := revision), root, child, r)
  }

  function Known(children: map<Bytes, Projected>, child: Bytes): Projected {
    if child in children then children[child] else FRESH
  }

  /* The projection of one session, updated in place. */

  method SendChildActivity(projected: Projected, child: Bytes, b: Body) returns (p: Projected, notices: seq<Notice>)
    ensures Sending(p, notices) == SendActivity(projected, child, b, |b.activity|)
  {
    p, notices := projected, [];
    var offset := 0;
    while offset < |b.activity|
      invariant offset <= |b.activity|
      invariant Sending(p, notices) == SendActivity(projected, child, b, offset)
    {
      var position := b.omitted + offset;
      var sent := [];
      var reached := true;
      match b.activity[offset] {
        case ToolEntry(id, title, kind, status) =>
          if id in p.tools {
            if p.tools[id] != status {
              sent := [ToolStatusNotice(child, id, status)];
            }
            p := p.(tools := p.tools[id := status]);
          } else if position >= p.activity {
            sent := [ToolNotice(child, id, title, status, KnownKind(kind))];
            p := p.(tools := p.tools[id := status]);
          } else {
            reached := false;
          }
        case MessageEntry(text) =>
          var delta := Delta(p, position, text);
          if delta.Some? {
            sent := [ChunkNotice(child, position, delta.value)];
            p := p.(message := Some(SentMessage(position, text)));
          }
      }
      if reached {
        p := p.(activity := Max(p.activity, position + 1));
      }
      notices := notices + sent;
      offset := offset + 1;
    }
  }

  class SubagentProjection {
    var children: map<Bytes, Projected>

    constructor ()
      ensures children == map[]
    {
      children := map[];
    }

    /** The notices that bring the client up to `snapshot`. */
    method Project(root: Bytes, snapshot: Snapshot, standard: bool) returns (notices: seq<Notice>)
      modifies this
      ensures
        var child := Trim(snapshot.id);
        if child == [] then notices == [] && children == old(children)
        else
          var known, b := Known(old(children), child), snapshot.body;
          var sent := Send(known, root, child, snapshot.revision, Read(b), b, standard);
          children == old(children)[child := sent.projected] && notices == sent.notices
    {
      var child := Trim(snapshot.id);
      if child == [] {
        return [];
      }
      notices := ProjectChild(root, child, snapshot.revision, Read(snapshot.body), snapshot.body, standard);
    }

    method ProjectChild(root: Bytes, child: Bytes, revision: nat, r: Reading, b: Body, standard: bool)
      returns (notices: seq<Notice>)
      modifies this
      ensures
        var sent := Send(Known(old(children), child), root, child, revision, r, b, standard);
        children == old(children)[child := sent.projected] && notices == sent.notices
    {
      if child !in children {
        children := children[child := FRESH];
      }
      var p := children[child];
      if revision < p.revision {
        return [];
      }
      p := p.(revision := revision);
      if standard {
        p, notices := ProjectStandard(p, root, child, r, b);
      } else {
        p, notices := ProjectLegacy(p, root, child, r);
      }
      children := children[child := p];
    }

    method ProjectLegacy(projected: Projected, root: Bytes, child: Bytes, r: Reading)
      returns (p: Projected, notices: seq<Notice>)
      ensures Sending(p, notices) == Legacy(projected, root, child, r)
    {
      p, notices := projected, [];
      if p.legacy == Some(r.legacy) {
        return;
      }
      if p.legacy.None? {
        notices := [LegacyCall(root, child, r.legacy, r.announcement.description, r.prompt)];
      } else {
        notices := [LegacyUpdate(root, child, r.legacy)];
      }
      p := p.(legacy := Some(r.legacy));
    }

    method ProjectStandard(projected: Projected, root: Bytes, child: Bytes, r: Reading, b: Body)
      returns (p: Projected, notices: seq<Notice>)
      ensures Sending(p, notices) == Standard(projected, root, child, r, b)
    {
      p := projected;
      var parent := if r.parent.Some? then r.parent.value else root;
      var announced, prompted, active, resulted := [], [], [], [];
      if p.announced != Some(r.announcement) {
        announced := [SubagentNotice(parent, child, r.announcement)];
        p := p.(announced := Some(r.announcement));
      }
      if r.prompt.Some? && p.prompt != r.prompt {
        prompted := [PromptNotice(parent, child, r.prompt.value)];
        p := p.(prompt := r.prompt);
      }
      p, active := SendChildActivity(p, child, b);
      if !r.working && r.result.Some? && p.result != r.result {
        resulted := [ResultNotice(parent, child, r.result.value)];
        p := p.(result := r.result);
      }
      notices := announced + prompted + active + resulted;
    }
  }
}
