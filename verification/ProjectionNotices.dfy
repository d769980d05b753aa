/** Every notice a client gets is addressed to the right session and says what some snapshot showed. */
module ProjectionNotices {
  import opened Results
  import opened Texts
  import opened SubagentFold
  import opened Words
  import opened Iteration
  import opened Projection
  import opened ProjectionRuns

  /* The words for a state. */

  predicate Given(value: Option<Bytes>) {
    value.Some? && Trim(value.value) != []
  }

  predicate BadReason(reason: Bytes) {
    reason in {CANCELLED, ERROR, REFUSAL, MAX_TOKENS, MAX_TURN_REQUESTS}
  }

  predicate StoppedBadly(b: Body) {
    b.stopReason.Some? && BadReason(b.stopReason.value)
  }

  /** A child is shown in progress while it works, failed when it stopped badly or with an error, else completed. */
  lemma LegacyStatusIff(b: Body)
    ensures LegacyStatusOf(b) == InProgress <==> b.state in {Some(Running), Some(RequiresAction)}
    ensures LegacyStatusOf(b) == LegacyFailed <==> b.state == Some(Idle) && (StoppedBadly(b) || Given(b.error))
  {
    assert CANCELLED != ERROR && CANCELLED != REFUSAL && ERROR != REFUSAL by {
      assert |CANCELLED| == 9 && |ERROR| == 5 && |REFUSAL| == 7;
    }
  }

  /** What each status of a child means. */
  lemma StatusIff(b: Body)
    ensures StatusOf(b) == AtWork <==> b.state == Some(Running) && b.reporting
    ensures StatusOf(b) == NoLongerReporting <==> b.state == Some(Running) && !b.reporting
    ensures StatusOf(b) == NeedsYourAnswer <==> b.state == Some(RequiresAction)
    ensures StatusOf(b) == Stopped <==> b.state == Some(Idle) && b.stopReason == Some(CANCELLED)
    ensures StatusOf(b) == Declined <==> b.state == Some(Idle) && b.stopReason == Some(REFUSAL)
    ensures StatusOf(b) == HitItsLimit <==>
      b.state == Some(Idle) && b.stopReason in {Some(MAX_TOKENS), Some(MAX_TURN_REQUESTS)}
    ensures StatusOf(b) == Failed <==>
      b.state == Some(Idle) && (b.stopReason == Some(ERROR) || (!StoppedBadly(b) && Given(b.error)))
    ensures StatusOf(b) == Done <==> b.state == Some(Idle) && !StoppedBadly(b) && !Given(b.error)
  {
    assert |CANCELLED| == 9 && |ERROR| == 5 && |REFUSAL| == 7 && |MAX_TOKENS| == 10 && |MAX_TURN_REQUESTS| == 17;
  }

  /** An error makes the standard state an error; a quiet child has no known state. */
  lemma StandardStateIff(b: Body)
    ensures StandardStateOf(b) == StandardRunning <==> b.state == Some(Running) && b.reporting
    ensures StandardStateOf(b) == StandardRequiresAction <==> b.state == Some(RequiresAction)
    ensures StandardStateOf(b).StandardIdle? <==> b.state == Some(Idle)
    ensures b.state == Some(Idle) && Given(b.error) ==>
      StandardStateOf(b) == StandardIdle(Some(ERROR), Some(Trim(b.error.value)))
    ensures b.state == Some(Idle) && !Given(b.error) ==>
      StandardStateOf(b) == StandardIdle(if Given(b.stopReason) then Some(Trim(b.stopReason.value)) else None, None)
    ensures StandardStateOf(b) == StandardUnknown <==> StatusOf(b) in {NoLongerReporting, Ended}
  {
    StatusIff(b);
  }

  /* The words of the legacy form. */

  predicate StartsWith(s: Bytes, t: Bytes) {
    t <= s
  }

  predicate EndsIn(s: Bytes, t: Bytes) {
    |t| <= |s| && s[|s| - |t|..] == t
  }

  lemma {:induction false} JoinStarts(parts: seq<Bytes>, separator: Bytes)
    requires parts != []
    ensures StartsWith(Join(parts, separator), parts[0])
  {
    if |parts| > 1 {
      JoinStarts(parts[..|parts| - 1], separator);
    }
  }

  lemma JoinEnds(parts: seq<Bytes>, separator: Bytes)
    requires parts != []
    ensures EndsIn(Join(parts, separator), parts[|parts| - 1])
  {
  }

  /** The text of the call opens with what was asked and closes with the error, else with a finished child's result. */
  lemma LegacyTextSays(b: Body)
    ensures Given(b.prompt) ==> StartsWith(LegacyText(b), ASKED + Trim(b.prompt.value))
    ensures !Given(b.prompt) ==> StartsWith(LegacyText(b), StatusLabel(StatusOf(b)))
    ensures Given(b.error) ==> EndsIn(LegacyText(b), ERROR_IS + Trim(b.error.value))
    ensures !Given(b.error) && Given(b.result) && b.state !in {Some(Running), Some(RequiresAction)} ==>
      EndsIn(LegacyText(b), RESULT_IS + Trim(b.result.value))
  {
    var parts := Optional(Trimmed(b.prompt), ASKED) + [Progress(b)] + Optional(NowLine(b), NOW)
      + (if IsWorking(b) then [] else Optional(Trimmed(b.result), RESULT_IS)) + Optional(Trimmed(b.error), ERROR_IS);
    JoinStarts(parts, PARAGRAPH);
    JoinEnds(parts, PARAGRAPH);
    ProgressStarts(b);
  }

  lemma ProgressStarts(b: Body)
    ensures StartsWith(Progress(b), StatusLabel(StatusOf(b)))
  {
    var parts := [StatusLabel(StatusOf(b))] + Optional(Trimmed(b.model), [])
      + (if b.toolCalls > 0 then [Plural(b.toolCalls, TOOL_CALL, TOOL_CALLS)] else [])
      + (if b.messages > 0 then [Plural(b.messages, MESSAGE, MESSAGES)] else []);
    JoinStarts(parts, MIDDLE_DOT);
  }

  /* Where notices go, and what they say. */

  function Addressee(root: Bytes, r: Reading): Bytes {
    if r.parent.Some? then r.parent.value else root
  }

  /** The entry of the snapshot at an absolute position. */
  predicate ShowsTool(b: Body, k: nat, id: Bytes, title: Bytes, status: Bytes, kind: Option<Bytes>) {
    && k < |b.activity| && b.activity[k].ToolEntry? && b.activity[k].id == id && b.activity[k].status == status
    && b.activity[k].title == title
    && kind == (if b.activity[k].kind.Some? && IsToolKind(b.activity[k].kind.value) then b.activity[k].kind else None)
  }

  predicate ShowsStatus(b: Body, k: nat, id: Bytes, status: Bytes) {
    k < |b.activity| && b.activity[k].ToolEntry? && b.activity[k].id == id && b.activity[k].status == status
  }

  /** The text is how the message at absolute position `at` goes on to its end. */
  predicate ShowsChunk(b: Body, k: nat, at: nat, text: Bytes) {
    k < |b.activity| && at == b.omitted + k && b.activity[k].MessageEntry? && EndsIn(b.activity[k].text, text)
  }

  /**
   * The notice says what delivery `d` shows: labels, prompt and result to the child's parent or the root, everything
   * of its activity to the child itself.
   */
  ghost predicate SaysOf(n: Notice, root: Bytes, child: Bytes, d: Delivery) {
    match n
    case SubagentNotice(session, c, a) =>
      session == Addressee(root, d.reading) && c == child && a == d.reading.announcement
    case PromptNotice(session, c, text) =>
      session == Addressee(root, d.reading) && c == child && d.reading.prompt == Some(text)
    case ResultNotice(session, c, text) =>
      session == Addressee(root, d.reading) && c == child && d.reading.result == Some(text) && !d.reading.working
    case ToolNotice(session, id, title, status, kind) =>
      session == child && exists k: nat :: ShowsTool(d.body, k, id, title, status, kind)
    case ToolStatusNotice(session, id, status) =>
      session == child && exists k: nat :: ShowsStatus(d.body, k, id, status)
    case ChunkNotice(session, at, text) =>
      session == child && exists k: nat :: ShowsChunk(d.body, k, at, text)
    case LegacyCall(session, c, fields, description, prompt) =>
      && session == root && c == child && fields == d.reading.legacy
      && description == d.reading.announcement.description && prompt == d.reading.prompt
    case LegacyUpdate(session, c, fields) => session == root && c == child && fields == d.reading.legacy
  }

  ghost predicate AllSayOf(notices: seq<Notice>, root: Bytes, child: Bytes, d: Delivery) {
    forall i :: 0 <= i < |notices| ==> SaysOf(notices[i], root, child, d)
  }

  lemma EntrySaysOf(p: Projected, root: Bytes, child: Bytes, d: Delivery, k: nat)
    requires k < |d.body.activity|
    ensures
      var notice := SendEntry(p, child, d.body.omitted + k, d.body.activity[k]).notice;
      notice.Some? ==> SaysOf(notice.value, root, child, d)
  {
    var e, at := d.body.activity[k], d.body.omitted + k;
    var notice := SendEntry(p, child, at, e).notice;
    if notice.Some? {
      if e.ToolEntry? {
        assert notice.value.ToolNotice? ==> ShowsTool(d.body, k, e.id, e.title, e.status, KnownKind(e.kind));
        assert ShowsStatus(d.body, k, e.id, e.status);
      } else {
        assert ShowsChunk(d.body, k, at, notice.value.text);
      }
    }
  }

  lemma {:induction false} ActivitySaysOf(p: Projected, root: Bytes, child: Bytes, d: Delivery, n: nat)
    requires n <= |d.body.activity|
    ensures AllSayOf(SendActivity(p, child, d.body, n).notices, root, child, d)
  {
    if n > 0 {
      ActivitySaysOf(p, root, child, d, n - 1);
      EntrySaysOf(SendActivity(p, child, d.body, n - 1).projected, root, child, d, n - 1);
    }
  }

  lemma StandardSaysOf(p: Projected, root: Bytes, child: Bytes, d: Delivery)
    ensures AllSayOf(Standard(p, root, child, d.reading, d.body).notices, root, child, d)
  {
    var parent, r := Addressee(root, d.reading), d.reading;
    var announced := SendAnnouncement(p, parent, child, r.announcement);
    var prompted := SendPrompt(announced.projected, parent, child, r.prompt);
    ActivitySaysOf(prompted.projected, root, child, d, |d.body.activity|);
  }

  lemma SendSaysOf(p: Projected, root: Bytes, child: Bytes, d: Delivery, standard: bool)
    ensures AllSayOf(Send(p, root, child, d.revision, d.reading, d.body, standard).notices, root, child, d)
  {
    StandardSaysOf(p.(revision := d.revision), root, child, d);
  }

  /** Every notice ever sent about a child says what one of the delivered snapshots showed, and to whom it belongs. */
  lemma {:induction false} EveryNoticeSays(root: Bytes, child: Bytes, ds: seq<Delivery>, standard: bool, i: nat)
    requires i < |SendAll(root, child, ds, standard).notices|
    ensures exists k: nat :: k < |ds| && SaysOf(SendAll(root, child, ds, standard).notices[i], root, child, ds[k])
  {
    if ds != [] {
      var init, d := ds[..|ds| - 1], ds[|ds| - 1];
      var before := SendAll(root, child, init, standard);
      SendSaysOf(before.projected, root, child, d, standard);
      if i < |before.notices| {
        EveryNoticeSays(root, child, init, standard, i);
        var k: nat :| k < |init| && SaysOf(before.notices[i], root, child, init[k]);
        assert ds[k] == init[k];
      } else {
        var sent := Send(before.projected, root, child, d.revision, d.reading, d.body, standard);
        assert SaysOf(sent.notices[i - |before.notices|], root, child, d);
        assert ds[|ds| - 1] == d;
      }
    }
  }

  /** A client hears of a child first by its announcement, or by the tool call that stands for it. */
  lemma {:induction false} AnnouncedFirst(root: Bytes, child: Bytes, ds: seq<Delivery>, standard: bool)
    ensures
      var sent := SendAll(root, child, ds, standard);
      && (sent.notices == [] <==> ds == [])
      && (standard ==> (sent.projected.announced.Some? <==> ds != []))
      && (!standard ==> (sent.projected.legacy.Some? <==> ds != []))
      && (ds != [] ==> if standard then sent.notices[0].SubagentNotice? else sent.notices[0].LegacyCall?)
      && (ds == [] ==> sent.projected.revision == 0)
  {
    if ds != [] {
      var init, d := ds[..|ds| - 1], ds[|ds| - 1];
      AnnouncedFirst(root, child, init, standard);
      var before := SendAll(root, child, init, standard);
      ActivityKeepsAnnounced(
        SendPrompt(SendAnnouncement(before.projected.(revision := d.revision), Addressee(root, d.reading), child,
                                    d.reading.announcement).projected,
                   Addressee(root, d.reading), child, d.reading.prompt).projected,
        child, d.body, |d.body.activity|);
    }
  }

  lemma {:induction false} ActivityKeepsAnnounced(p: Projected, child: Bytes, b: Body, n: nat)
    ensures SendActivity(p, child, b, n).projected.announced == p.announced
    ensures SendActivity(p, child, b, n).projected.legacy == p.legacy
  {
    if n > 0 {
      ActivityKeepsAnnounced(p, child, b, n - 1);
    }
  }

  /* The same, in the words of the snapshot. */

  function LabelIn(value: Option<Bytes>): Option<Bytes> {
    if Given(value) then Some(Trim(value.value)) else None
  }

  /** What the notice says of the snapshot it was read from. */
  ghost predicate SaysSnapshot(n: Notice, root: Bytes, b: Body) {
    var parent := if Given(b.parent) then Trim(b.parent.value) else root;
    match n
    case SubagentNotice(session, _, a) =>
      && session == parent && a.title == LabelIn(b.title) && a.description == LabelIn(b.description)
      && a.cancel == b.cancellable && a.state == StandardStateOf(b)
    case PromptNotice(session, _, text) => session == parent && Given(b.prompt) && text == Trim(b.prompt.value)
    case ResultNotice(session, _, text) =>
      && session == parent && Given(b.result) && text == Trim(b.result.value)
      && b.state !in {Some(Running), Some(RequiresAction)}
    case LegacyCall(_, _, fields, description, prompt) =>
      LegacySays(fields, b) && description == LabelIn(b.description) && prompt == LabelIn(b.prompt)
    case LegacyUpdate(_, _, fields) => LegacySays(fields, b)
    case _ => true
  }

  /** Title, status and text of the call; a child without a title goes by its description. */
  ghost predicate LegacySays(fields: LegacyFields, b: Body) {
    && (Given(b.title) ==> fields.title == SUBAGENT_IS + Trim(b.title.value))
    && (!Given(b.title) && Given(b.description) ==> fields.title == SUBAGENT_IS + Trim(b.description.value))
    && (!Given(b.title) && !Given(b.description) ==> fields.title == SUBAGENT_IS + SUBAGENT)
    && fields.status == LegacyStatusOf(b) && fields.text == LegacyText(b)
  }

  /** A notice of a snapshot read by the bridge says what the snapshot itself says. */
  lemma NoticeSaysSnapshot(n: Notice, root: Bytes, child: Bytes, d: Delivery)
    requires SaysOf(n, root, child, d) && d.reading == Read(d.body)
    ensures SaysSnapshot(n, root, d.body)
  {
    assert Trimmed(d.body.parent) == LabelIn(d.body.parent);
  }
}
