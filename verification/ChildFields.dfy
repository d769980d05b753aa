/** What a kept child's counters, texts and labels say of everything that reached it. */
module ChildFields {
  import opened Results
  import opened Texts
  import opened SubagentFold
  import opened ChildHistory

  /* Counters. */

  ghost function Started(ds: Deeds): nat {
    if ds == [] then 0 else Started(ds[..|ds| - 1]) + if StartsTool(ds[|ds| - 1]) then 1 else 0
  }

  function Saturated(n: nat): nat {
    if n < U32_MAX then n else U32_MAX
  }

  /** The counters after `entries` entries, of which `started` are tools. */
  predicate Counted(c: Child, entries: nat, started: nat) {
    && entries >= started && entries >= |c.activity|
    && c.toolCalls == Saturated(started)
    && c.messages == Saturated(entries - started)
    && c.omitted == Saturated(entries - |c.activity|)
  }

  /** Every tool call and every message counts, shown or not. */
  ghost predicate CountsTold(c: Child, ds: Deeds) {
    Counted(c, |Openings(ds)|, Started(ds))
  }

  lemma CountStreamed(c: Child, d: Deed, now: nat, entries: nat, started: nat, joins: bool)
    requires Streams(d) && Counted(c, entries, started)
    requires |c.activity| == if entries < MAX_ACTIVITY then entries else MAX_ACTIVITY
    requires Continues(c, d.update.messageId) <==> joins
    ensures Counted(After(c, d, now), if joins then entries else entries + 1, started)
  {
  }

  lemma CountStarted(c: Child, d: Deed, now: nat, entries: nat, started: nat)
    requires StartsTool(d) && Counted(c, entries, started)
    requires |c.activity| == if entries < MAX_ACTIVITY then entries else MAX_ACTIVITY
    ensures Counted(After(c, d, now), entries + 1, started + 1)
  {
  }

  lemma CountOther(c: Child, d: Deed, now: nat, entries: nat, started: nat)
    requires Fits(d) && !Moves(d) && Counted(c, entries, started)
    ensures Counted(After(c, d, now), entries, started)
  {
  }

  lemma CountsNext(c: Child, ds: Deeds, d: Deed, now: nat)
    requires Fits(d) && ActivityTold(c.activity, ds) && CountsTold(c, ds)
    ensures CountsTold(After(c, d, now), ds + [d])
  {
    assert (ds + [d])[..|ds|] == ds;
    OpeningsNext(ds, d);
    var entries, started := |Openings(ds)|, Started(ds);
    if Streams(d) {
      ContinuesIff(c, ds, d);
      CountStreamed(c, d, now, entries, started, Joins(ds + [d], |ds|));
    } else if StartsTool(d) {
      CountStarted(c, d, now, entries, started);
    } else {
      CountOther(c, d, now, entries, started);
    }
  }

  /* The last thing said. */

  function StatePatchOf(d: Deed): Option<StatePatch> {
    if d.Told? && Fits(d) then d.update.patch else None
  }

  /** The state the child last reported, with all that came with it. */
  ghost function LastPatch(ds: Deeds): Option<StatePatch> {
    if ds == [] then None
    else if StatePatchOf(ds[|ds| - 1]).Some? then StatePatchOf(ds[|ds| - 1])
    else LastPatch(ds[..|ds| - 1])
  }

  ghost function StateOf(ds: Deeds): Option<WorkState> {
    if LastPatch(ds).Some? then LastPatch(ds).value.state else None
  }

  datatype Name = Title | Description

  /** What an announcement says of a label. */
  function PatchOf(d: Deed, name: Name): Patch {
    if !(d.Told? && Fits(d)) then Keep else if name.Title? then d.update.title else d.update.description
  }

  /** The label last given, unless it was cleared since. */
  ghost function NameOf(ds: Deeds, name: Name): Option<Bytes> {
    if ds == [] then None
    else
      match PatchOf(ds[|ds| - 1], name)
      case Keep => NameOf(ds[..|ds| - 1], name)
      case Clear => None
      case Put(text) => Some(text)
  }

  function Shortened(value: Option<Bytes>): Option<Text> {
    if value.Some? then Some(ShortLabel(value.value)) else None
  }

  function CancelPatch(d: Deed): Option<bool> {
    if d.Told? && Fits(d) then d.update.cancel else None
  }

  /** Whether the child was last said to be cancellable. */
  ghost function CancelOf(ds: Deeds): bool {
    if ds == [] then false
    else if CancelPatch(ds[|ds| - 1]).Some? then CancelPatch(ds[|ds| - 1]).value
    else CancelOf(ds[..|ds| - 1])
  }

  /** The child's state, and why it stopped, are those of the patch. */
  predicate StateShown(c: Child, patch: Option<StatePatch>) {
    && c.state == (if patch.Some? then patch.value.state else None)
    && c.stopReason == (if patch.Some? then patch.value.stopReason else None)
    && c.error == (if patch.Some? then Shortened(patch.value.error) else None)
  }

  ghost predicate LabelsTold(c: Child, ds: Deeds) {
    && c.title == Shortened(NameOf(ds, Title)) && c.description == Shortened(NameOf(ds, Description))
    && c.cancel == CancelOf(ds)
    && StateShown(c, LastPatch(ds))
  }

  lemma ShortenedLabels(value: Option<Bytes>)
    ensures value.Some? ==> Shortened(value) == Some(Label(value.value))
  {
    if value.Some? {
      LabelClips(value.value);
    }
  }

  lemma LabelsFollow(ds: Deeds, d: Deed)
    ensures NameOf(ds + [d], Title) == Renamed(NameOf(ds, Title), PatchOf(d, Title))
    ensures NameOf(ds + [d], Description) == Renamed(NameOf(ds, Description), PatchOf(d, Description))
    ensures CancelOf(ds + [d]) == if CancelPatch(d).Some? then CancelPatch(d).value else CancelOf(ds)
    ensures LastPatch(ds + [d]) == if StatePatchOf(d).Some? then StatePatchOf(d) else LastPatch(ds)
  {
    assert (ds + [d])[..|ds|] == ds;
  }

  function Renamed(name: Option<Bytes>, patch: Patch): Option<Bytes> {
    match patch
    case Keep => name
    case Clear => None
    case Put(text) => Some(text)
  }

  lemma NamePatched(current: Option<Text>, name: Option<Bytes>, patch: Patch)
    requires current == Shortened(name)
    ensures Patched(current, patch) == Shortened(Renamed(name, patch))
  {
    if patch.Put? {
      LabelClips(patch.text);
    }
  }

  lemma AnnouncedLabels(c: Child, d: Deed, now: nat)
    requires d.Told? && Fits(d)
    ensures
      var e, u := After(c, d, now), d.update;
      && e.title == Patched(c.title, u.title) && e.description == Patched(c.description, u.description)
      && e.cancel == (if u.cancel.Some? then u.cancel.value else c.cancel)
      && (u.patch.Some? ==> StateShown(e, u.patch))
      && (u.patch.None? ==> e.state == c.state && e.stopReason == c.stopReason && e.error == c.error)
  {
    if d.update.patch.Some? {
      ShortenedLabels(d.update.patch.value.error);
    }
  }

  /** The child but for its entries, their counts, its last message and its model. */
  predicate LeftAlone(c: Child, e: Child) {
    e == c.(toolCalls := e.toolCalls, messages := e.messages, activity := e.activity, omitted := e.omitted,
            lastMessage := e.lastMessage, dirty := e.dirty, model := e.model)
  }

  lemma StreamLeaves(c: Child, u: Update, now: nat)
    requires u.AgentMessageChunk? && u.text.Some?
    ensures LeftAlone(c, Fold(c, u, now).child) && Fold(c, u, now).child.model == c.model
  {
  }

  lemma ToolLeaves(c: Child, u: Update, now: nat)
    requires u.ToolCall? || u.ToolCallUpdate?
    ensures LeftAlone(c, Fold(c, u, now).child)
    ensures Fold(c, u, now).child.model == c.model && Fold(c, u, now).child.lastMessage == c.lastMessage
  {
  }

  /** An update of the child's own session leaves its labels, its state and its linked texts. */
  lemma FoldLeaves(c: Child, u: Update, now: nat)
    ensures LeftAlone(c, Fold(c, u, now).child)
    ensures !(u.AgentMessageChunk? && u.text.Some?) ==> Fold(c, u, now).child.lastMessage == c.lastMessage
    ensures !u.ModelUpdate? ==> Fold(c, u, now).child.model == c.model
  {
    if u.AgentMessageChunk? && u.text.Some? {
      StreamLeaves(c, u, now);
    } else if u.ToolCall? || u.ToolCallUpdate? {
      ToolLeaves(c, u, now);
    }
  }

  lemma OtherLabels(c: Child, d: Deed, now: nat)
    requires !d.Told? && Fits(d)
    ensures
      var e := After(c, d, now);
      && e.title == c.title && e.description == c.description && e.cancel == c.cancel
      && e.state == c.state && e.stopReason == c.stopReason && e.error == c.error
  {
    if d.Inside? {
      FoldLeaves(c, d.update, now);
    }
  }

  lemma LabelsNext(c: Child, ds: Deeds, d: Deed, now: nat)
    requires Fits(d) && LabelsTold(c, ds)
    ensures LabelsTold(After(c, d, now), ds + [d])
  {
    LabelsFollow(ds, d);
    if d.Told? {
      AnnouncedLabels(c, d, now);
      NamePatched(c.title, NameOf(ds, Title), d.update.title);
      NamePatched(c.description, NameOf(ds, Description), d.update.description);
    } else {
      OtherLabels(c, d, now);
    }
  }

  /* Texts. */

  /** The child, idle until then, is told to be running again. */
  predicate Resumes(state: Option<WorkState>, d: Deed) {
    StatePatchOf(d).Some? && StatePatchOf(d).value.state == Some(Running) && state == Some(Idle)
  }

  /** A whole message replaces the text it is linked to, a chunk goes on with it. */
  function Continue(pieces: seq<Bytes>, d: Deed, link: Link): seq<Bytes> {
    if !(d.Said? && d.link == link) then pieces
    else if d.update.SessionMessage? && d.update.content.Some? then [d.update.content.value]
    else if d.update.SessionMessageChunk? && d.update.text.Some? then pieces + [d.update.text.value]
    else pieces
  }

  /** The pieces of the text linked as `link`: the last whole message and the chunks since. */
  ghost function Pieces(ds: Deeds, link: Link): seq<Bytes> {
    if ds == [] then []
    else
      var before, d := ds[..|ds| - 1], ds[|ds| - 1];
      if link.Reply? && Resumes(StateOf(before), d) then [] else Continue(Pieces(before, link), d, link)
  }

  /** The chunks of the child's newest message, since it was last resumed. */
  ghost function LastChunks(ds: Deeds): seq<Bytes> {
    if ds == [] then []
    else
      var before, d := ds[..|ds| - 1], ds[|ds| - 1];
      if Resumes(StateOf(before), d) then []
      else if !Streams(d) then LastChunks(before)
      else (if Opens(ds, |ds| - 1) then [] else LastChunks(before)) + [d.update.text.value]
  }

  predicate Texted(c: Child, prompt: seq<Bytes>, reply: seq<Bytes>, last: seq<Bytes>) {
    && c.prompt == AppendAll(prompt, MESSAGE_BYTES)
    && c.reply == AppendAll(reply, MESSAGE_BYTES)
    && c.lastMessage == AppendAll(last, MESSAGE_BYTES)
  }

  /** Prompt, reply and last message are the clips of their pieces; a resumed child starts over. */
  ghost predicate TextsTold(c: Child, ds: Deeds) {
    Texted(c, Pieces(ds, Prompt), Pieces(ds, Reply), LastChunks(ds))
  }

  lemma PiecesFollow(ds: Deeds, d: Deed)
    ensures Pieces(ds + [d], Prompt) == Continue(Pieces(ds, Prompt), d, Prompt)
    ensures Pieces(ds + [d], Reply) ==
      if Resumes(StateOf(ds), d) then [] else Continue(Pieces(ds, Reply), d, Reply)
    ensures LastChunks(ds + [d]) ==
      if Resumes(StateOf(ds), d) then []
      else if !Streams(d) then LastChunks(ds)
      else (if Opens(ds + [d], |ds|) then [] else LastChunks(ds)) + [d.update.text.value]
  {
    assert (ds + [d])[..|ds|] == ds;
  }

  lemma AppendFirst(text: Bytes, limit: nat)
    ensures AppendAll([text], limit) == Append(EMPTY, text, limit)
    ensures AppendAll([] + [text], limit) == Append(EMPTY, text, limit)
  {
    assert AppendAll([text][..0], limit) == EMPTY;
    assert [] + [text] == [text];
  }

  lemma MessagedText(t: Text, pieces: seq<Bytes>, d: Deed)
    requires d.Said? && Fits(d) && t == AppendAll(pieces, MESSAGE_BYTES)
    ensures Messaged(t, d.update) == AppendAll(Continue(pieces, d, d.link), MESSAGE_BYTES)
  {
    var u := d.update;
    if u.SessionMessage? && u.content.Some? {
      AppendFirst(u.content.value, MESSAGE_BYTES);
    } else if u.SessionMessageChunk? && u.text.Some? {
      AppendOne(pieces, u.text.value, MESSAGE_BYTES);
    }
  }

  lemma SaidTexts(c: Child, d: Deed, now: nat, prompt: seq<Bytes>, reply: seq<Bytes>, last: seq<Bytes>)
    requires d.Said? && Fits(d) && Texted(c, prompt, reply, last)
    ensures Texted(After(c, d, now), Continue(prompt, d, Prompt), Continue(reply, d, Reply), last)
  {
    MessagedText(if d.link.Prompt? then c.prompt else c.reply, if d.link.Prompt? then prompt else reply, d);
  }

  lemma StreamedTexts(c: Child, d: Deed, now: nat, prompt: seq<Bytes>, reply: seq<Bytes>, last: seq<Bytes>, opens: bool)
    requires Streams(d) && Texted(c, prompt, reply, last) && (Continues(c, d.update.messageId) <==> !opens)
    ensures Texted(After(c, d, now), prompt, reply, (if opens then [] else last) + [d.update.text.value])
  {
    AppendOne(last, d.update.text.value, MESSAGE_BYTES);
    AppendFirst(d.update.text.value, MESSAGE_BYTES);
  }

  lemma ToldTexts(c: Child, d: Deed, now: nat, prompt: seq<Bytes>, reply: seq<Bytes>, last: seq<Bytes>)
    requires d.Told? && Fits(d) && Texted(c, prompt, reply, last)
    ensures
      if Resumes(c.state, d) then Texted(After(c, d, now), prompt, [], [])
      else Texted(After(c, d, now), prompt, reply, last)
  {
  }

  lemma TextsNext(c: Child, ds: Deeds, d: Deed, now: nat)
    requires Fits(d) && NewestTold(c.activity, ds) && c.state == StateOf(ds) && TextsTold(c, ds)
    ensures TextsTold(After(c, d, now), ds + [d])
  {
    var prompt, reply, last := Pieces(ds, Prompt), Pieces(ds, Reply), LastChunks(ds);
    PiecesFollow(ds, d);
    if d.Said? {
      SaidTexts(c, d, now, prompt, reply, last);
    } else if Streams(d) {
      ContinuesIff(c, ds, d);
      StreamedTexts(c, d, now, prompt, reply, last, Opens(ds + [d], |ds|));
    } else if d.Told? {
      ToldTexts(c, d, now, prompt, reply, last);
    } else {
      FoldLeaves(c, d.update, now);
    }
  }

  /* Usage and model. */

  /** The usage an idle state came with. */
  function UsagePatch(d: Deed): Option<Usage> {
    var patch := StatePatchOf(d);
    if patch.Some? && patch.value.state == Some(Idle) then patch.value.usage else None
  }

  /** The usage reported with an idle state since the child was last resumed. */
  ghost function UsageOf(ds: Deeds): Option<Usage> {
    if ds == [] then None
    else
      var before, d := ds[..|ds| - 1], ds[|ds| - 1];
      if Resumes(StateOf(before), d) then None
      else if UsagePatch(d).Some? then UsagePatch(d)
      else UsageOf(before)
  }

  /** A named model replaces another; the only model of an idle state counts when none is known. */
  function Renew(known: Option<Text>, d: Deed): Option<Text> {
    if d.Inside? && d.update.ModelUpdate? && d.update.model.Some? then
      var model := Trim(d.update.model.value);
      if model == [] || (known.Some? && known.value.value == model) then known else Some(ShortLabel(model))
    else
      var patch := StatePatchOf(d);
      if patch.Some? && patch.value.state == Some(Idle) && known.None? then Shortened(patch.value.onlyModel) else known
  }

  ghost function ModelOf(ds: Deeds): Option<Text> {
    if ds == [] then None else Renew(ModelOf(ds[..|ds| - 1]), ds[|ds| - 1])
  }

  ghost predicate MetaTold(c: Child, ds: Deeds) {
    c.usage == UsageOf(ds) && c.model == ModelOf(ds)
  }

  lemma MetaAfter(c: Child, d: Deed, now: nat)
    requires Fits(d)
    ensures After(c, d, now).model == Renew(c.model, d)
    ensures After(c, d, now).usage ==
      if Resumes(c.state, d) then None else if UsagePatch(d).Some? then UsagePatch(d) else c.usage
  {
    if d.Told? && d.update.patch.Some? {
      ShortenedLabels(d.update.patch.value.onlyModel);
    } else if d.Inside? {
      FoldLeaves(c, d.update, now);
      if d.update.ModelUpdate? && d.update.model.Some? {
        LabelClips(Trim(d.update.model.value));
      }
    }
  }

  lemma MetaNext(c: Child, ds: Deeds, d: Deed, now: nat)
    requires Fits(d) && c.state == StateOf(ds) && MetaTold(c, ds)
    ensures MetaTold(After(c, d, now), ds + [d])
  {
    assert (ds + [d])[..|ds|] == ds;
    MetaAfter(c, d, now);
  }

  /* The whole child. */

  /** The child shows everything that reached it, as it was last said. */
  ghost predicate Tells(c: Child, ds: Deeds) {
    && ActivityTold(c.activity, ds) && CountsTold(c, ds)
    && LabelsTold(c, ds) && TextsTold(c, ds) && MetaTold(c, ds)
  }

  lemma NothingOpened()
    ensures Openings([]) == [] && LastMove([]) == 0 && Started([]) == 0
    ensures ActivityTold([], [])
  {
    assert Newest([]) == [];
  }

  lemma NothingSaid(c: Child)
    requires c == NewChild(c.parent)
    ensures LabelsTold(c, [])
    ensures TextsTold(c, []) && MetaTold(c, [])
  {
    assert Pieces([], Prompt) == [] && Pieces([], Reply) == [] && LastChunks([]) == [];
    assert AppendAll([], MESSAGE_BYTES) == EMPTY;
  }

  /** A child just announced has nothing to show. */
  lemma TellsNew(parent: Option<Bytes>)
    ensures Tells(NewChild(parent), [])
  {
    NothingOpened();
    NothingSaid(NewChild(parent));
  }

  /** One more deed, and the child still tells them all. */
  lemma TellsNext(c: Child, ds: Deeds, d: Deed, now: nat)
    requires Fits(d) && Tells(c, ds)
    ensures Tells(After(c, d, now), ds + [d])
  {
    EntriesNext(c, ds, d, now);
    CountsNext(c, ds, d, now);
    LabelsNext(c, ds, d, now);
    TextsNext(c, ds, d, now);
    MetaNext(c, ds, d, now);
  }
}
