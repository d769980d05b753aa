/** A client that only receives deltas knows what the snapshots said. */
module ProjectionLaws {
  import opened Results
  import opened Texts
  import opened SubagentFold
  import opened SubagentLaws
  import opened Projection
  import opened Iteration

  /* The client: what it makes of the notices about one child. */

  datatype Client = Client(
    title: Option<Bytes>,
    description: Option<Bytes>,
    cancel: bool,
    state: Option<StandardState>,
    prompt: Option<Bytes>,
    result: Option<Bytes>,
    announced: multiset<Bytes>,
    tools: map<Bytes, Bytes>,
    texts: map<nat, Bytes>,
    legacyCalls: nat,
    legacy: Option<LegacyFields>)

  const NEW_CLIENT := Client(None, None, false, None, None, None, multiset{}, map[], map[], 0, None)

  function Sent(c: Client, position: nat): Bytes {
    if position in c.texts then c.texts[position] else []
  }

  function Later(next: Option<Bytes>, before: Option<Bytes>): Option<Bytes> {
    if next.Some? then next else before
  }

  function Receive(c: Client, n: Notice): Client {
    match n
    case SubagentNotice(_, _, a) =>
      c.(title := Later(a.title, c.title), description := Later(a.description, c.description),
         cancel := a.cancel, state := Some(a.state))
    case PromptNotice(_, _, text) => c.(prompt := Some(text))
    case ResultNotice(_, _, text) => c.(result := Some(text))
    case ToolNotice(_, id, _, status, _) => c.(announced := c.announced + multiset{id}, tools := c.tools[id := status])
    case ToolStatusNotice(_, id, status) => c.(tools := c.tools[id := status])
    case ChunkNotice(_, at, text) => c.(texts := c.texts[at := Sent(c, at) + text])
    case LegacyCall(_, _, fields, _, _) => c.(legacyCalls := c.legacyCalls + 1, legacy := Some(fields))
    case LegacyUpdate(_, _, fields) => c.(legacy := Some(fields))
  }

  function ReceiveAll(c: Client, notices: seq<Notice>): Client {
    if notices == [] then c else Receive(ReceiveAll(c, notices[..|notices| - 1]), notices[|notices| - 1])
  }

  lemma {:induction false} ReceiveJoin(c: Client, a: seq<Notice>, b: seq<Notice>)
    ensures ReceiveAll(c, a + b) == ReceiveAll(ReceiveAll(c, a), b)
  {
    if b == [] {
      assert a + b == a;
    } else {
      assert (a + b)[..|a + b| - 1] == a + b[..|b| - 1];
      ReceiveJoin(c, a, b[..|b| - 1]);
    }
  }

  /* The ledger: what complete snapshots say, read one after another. */

  datatype Ledger = Ledger(
    title: Option<Bytes>,
    description: Option<Bytes>,
    announced: Option<Announcement>,
    prompt: Option<Bytes>,
    result: Option<Bytes>,
    tools: map<Bytes, Bytes>,
    texts: map<nat, Bytes>,
    muted: set<nat>)

  const NO_LEDGER := Ledger(None, None, None, None, None, map[], map[], {})

  /** The last status of a tool and the last text of a message; a message first seen empty is muted. */
  function RecordEntry(l: Ledger, position: nat, e: Entry): Ledger {
    match e
    case ToolEntry(id, _, _, status) => l.(tools := l.tools[id := status])
    case MessageEntry(text) =>
      l.(texts := l.texts[position := text],
         muted := if position !in l.texts && text == [] then l.muted + {position} else l.muted)
  }

  function RecordStep(b: Body): (Ledger, nat) -> Ledger {
    (l: Ledger, k: nat) => if k < |b.activity| then RecordEntry(l, b.omitted + k, b.activity[k]) else l
  }

  function RecordActivity(l: Ledger, b: Body, n: nat): Ledger {
    Iterate(RecordStep(b), l, n)
  }

  function RecordLabels(l: Ledger, r: Reading): Ledger {
    l.(title := Later(r.announcement.title, l.title),
       description := Later(r.announcement.description, l.description),
       announced := Some(r.announcement),
       prompt := Later(r.prompt, l.prompt),
       result := if r.working then l.result else Later(r.result, l.result))
  }

  function Record(l: Ledger, r: Reading, b: Body): Ledger {
    RecordActivity(RecordLabels(l, r), b, |b.activity|)
  }

  /* Activity. */

  ghost predicate AnnouncedOnce(announced: multiset<Bytes>, tools: map<Bytes, Bytes>) {
    forall id :: announced[id] == if id in tools then 1 else 0
  }

  /** The client's tools are those of the ledger, each announced once. */
  ghost predicate ToolsMatch(p: Projected, l: Ledger, c: Client) {
    p.tools == l.tools && c.tools == l.tools && AnnouncedOnce(c.announced, l.tools)
  }

  ghost predicate Below(texts: map<nat, Bytes>, n: nat) {
    forall q :: q in texts ==> q < n
  }

  function Audible(l: Ledger, q: nat): Bytes {
    if q in l.texts && q !in l.muted then l.texts[q] else []
  }

  ghost predicate TextsAgree(c: Client, l: Ledger) {
    forall q: nat :: Sent(c, q) == Audible(l, q)
  }

  predicate MessageRecorded(m: SentMessage, l: Ledger) {
    m.at in l.texts && m.at !in l.muted && l.texts[m.at] == m.text
  }

  /** The client's texts are those of the ledger that are not muted. */
  ghost predicate TextsMatch(p: Projected, l: Ledger, c: Client) {
    && TextsAgree(c, l)
    && Below(l.texts, p.activity)
    && l.muted <= l.texts.Keys
    && (p.message.Some? ==> MessageRecorded(p.message.value, l))
  }

  ghost predicate Sync(p: Projected, l: Ledger, c: Client) {
    ToolsMatch(p, l, c) && TextsMatch(p, l, c)
  }

  /** The entry is new, or the ledger has it and its new text can still be sent or never could. */
  predicate Sendable(p: Projected, l: Ledger, q: nat, e: Entry) {
    || q >= p.activity
    || (e.ToolEntry? && e.id in l.tools)
    || (e.MessageEntry? && q in l.texts
        && (|| l.texts[q] == e.text
            || (l.texts[q] <= e.text && (q in l.muted || (p.message.Some? && p.message.value.at == q)))))
  }

  function ReceiveEntry(p: Projected, c: Client, child: Bytes, q: nat, e: Entry): Client {
    ReceiveOption(c, SendEntry(p, child, q, e).notice)
  }

  function ReceiveOption(c: Client, notice: Option<Notice>): Client {
    if notice.Some? then Receive(c, notice.value) else c
  }

  lemma ReceiveOptionIs(c: Client, notice: Option<Notice>)
    ensures ReceiveAll(c, AsSeq(notice)) == ReceiveOption(c, notice)
  {
    if notice.Some? {
      ReceiveOne(c, notice.value);
    }
  }

  lemma ReceiveOne(c: Client, n: Notice)
    ensures ReceiveAll(c, [n]) == Receive(c, n)
  {
    assert [n][..0] == [];
  }

  lemma ToolsKept(p: Projected, l: Ledger, c: Client, child: Bytes, q: nat, e: Entry)
    requires ToolsMatch(p, l, c) && Sendable(p, l, q, e) && e.ToolEntry?
    ensures ToolsMatch(SendEntry(p, child, q, e).projected, RecordEntry(l, q, e), ReceiveEntry(p, c, child, q, e))
    ensures ReceiveEntry(p, c, child, q, e).texts == c.texts
  {
    if SendEntry(p, child, q, e).notice.None? {
      assert l.tools[e.id := e.status] == l.tools;
    }
  }

  lemma TextsUntouched(p: Projected, l: Ledger, c: Client, later: Projected, r: Ledger, d: Client)
    requires TextsMatch(p, l, c) && d.texts == c.texts && r.texts == l.texts && r.muted == l.muted
    requires later.message == p.message && later.activity >= p.activity
    ensures TextsMatch(later, r, d)
  {
    assert forall q: nat :: Sent(d, q) == Sent(c, q) && Audible(r, q) == Audible(l, q);
  }

  /** New text of the message at `q` reaches the client. */
  lemma SentKeeps(p: Projected, l: Ledger, c: Client, child: Bytes, q: nat, e: Entry)
    requires TextsMatch(p, l, c) && Sendable(p, l, q, e) && e.MessageEntry? && Delta(p, q, e.text).Some?
    ensures TextsMatch(SendEntry(p, child, q, e).projected, RecordEntry(l, q, e), ReceiveEntry(p, c, child, q, e))
  {
    var n := ChunkNotice(child, q, Delta(p, q, e.text).value);
    var d, r := Receive(c, n), RecordEntry(l, q, e);
    assert Sent(c, q) == Audible(l, q);
    assert Sent(d, q) == e.text;
    assert forall k: nat :: k != q ==> Sent(d, k) == Sent(c, k) && Audible(r, k) == Audible(l, k);
  }

  /** Nothing is sent: the text is known, muted, or empty. */
  lemma UnsentKeeps(p: Projected, l: Ledger, c: Client, child: Bytes, q: nat, e: Entry)
    requires TextsMatch(p, l, c) && Sendable(p, l, q, e) && e.MessageEntry? && Delta(p, q, e.text).None?
    ensures TextsMatch(SendEntry(p, child, q, e).projected, RecordEntry(l, q, e), c)
  {
  }

  lemma EntrySync(p: Projected, l: Ledger, c: Client, child: Bytes, q: nat, e: Entry)
    requires Sync(p, l, c) && Sendable(p, l, q, e)
    ensures Sync(SendEntry(p, child, q, e).projected, RecordEntry(l, q, e), ReceiveEntry(p, c, child, q, e))
  {
    if e.ToolEntry? {
      ToolsKept(p, l, c, child, q, e);
      TextsUntouched(p, l, c, SendEntry(p, child, q, e).projected, RecordEntry(l, q, e),
        ReceiveEntry(p, c, child, q, e));
    } else if Delta(p, q, e.text).Some? {
      SentKeeps(p, l, c, child, q, e);
    } else {
      UnsentKeeps(p, l, c, child, q, e);
    }
  }

  /** The ledger has the entry as it stands. */
  predicate Has(l: Ledger, q: nat, e: Entry) {
    if e.ToolEntry? then e.id in l.tools else q in l.texts && l.texts[q] == e.text
  }

  /** The message at `q`, if it is one and was ever sent, is the one last sent. */
  predicate LastSent(p: Projected, l: Ledger, q: nat, e: Entry) {
    e.MessageEntry? && q !in l.muted ==> p.message.Some? && p.message.value.at == q
  }

  /** The ledger has what `b` shows from position `from` to `to`. */
  ghost predicate HasAll(l: Ledger, b: Body, from: nat, to: nat) {
    forall q: nat :: from <= q < to && b.omitted <= q < Total(b) ==> Has(l, q, At(b, q))
  }

  /** The entry of `b` just before `end`, if it is a sent message, is the one last sent. */
  predicate NewestSent(p: Projected, l: Ledger, b: Body, end: nat) {
    b.omitted < end <= Total(b) ==> LastSent(p, l, end - 1, At(b, end - 1))
  }

  /** Everything `last` shows was projected. */
  ghost predicate Settled(p: Projected, l: Ledger, last: Body) {
    p.activity <= Total(last) && HasAll(l, last, last.omitted, Total(last)) && NewestSent(p, l, last, Total(last))
  }

  /** `last` was projected, and so were the first `n` entries of `b`. */
  ghost predicate Half(p: Projected, l: Ledger, last: Body, b: Body, n: nat)
    requires n <= |b.activity|
  {
    var next := b.omitted + n;
    && p.activity <= Max(Total(last), next)
    && HasAll(l, last, next, Total(last))
    && (next < Total(last) ==> NewestSent(p, l, last, Total(last)))
    && HasAll(l, b, b.omitted, next)
    && (next >= Total(last) ==> NewestSent(p, l, b, next))
  }

  lemma NextSendable(p: Projected, l: Ledger, c: Client, last: Body, b: Body, n: nat)
    requires n < |b.activity| && Evolves(last, b) && b.omitted < U32_MAX
    requires Sync(p, l, c) && Half(p, l, last, b, n)
    ensures Sendable(p, l, b.omitted + n, b.activity[n])
  {
    var q := b.omitted + n;
    if q < Total(last) {
      assert SameEntry(At(last, q), At(b, q), q + 1 == Total(last));
      assert Has(l, q, At(last, q));
    }
  }

  /** Recording `e` at `q` leaves what is known elsewhere. */
  lemma StillHas(l: Ledger, q: nat, e: Entry, k: nat, x: Entry)
    requires Has(l, k, x) && k != q
    ensures Has(RecordEntry(l, q, e), k, x)
  {
  }

  lemma NowHas(l: Ledger, q: nat, e: Entry)
    ensures Has(RecordEntry(l, q, e), q, e)
  {
  }

  /** Before the newest entry of `last` is reached again, the last sent message stays. */
  lemma NewestStays(p: Projected, l: Ledger, c: Client, child: Bytes, last: Body, b: Body, n: nat)
    requires n < |b.activity| && Evolves(last, b) && b.omitted < U32_MAX
    requires TextsMatch(p, l, c) && Half(p, l, last, b, n) && b.omitted + n + 1 < Total(last)
    ensures
      var q := b.omitted + n;
      LastSent(SendEntry(p, child, q, b.activity[n]).projected, RecordEntry(l, q, b.activity[n]), Total(last) - 1,
        At(last, Total(last) - 1))
  {
    var q := b.omitted + n;
    assert SameEntry(At(last, q), At(b, q), false);
    assert Has(l, q, At(last, q));
  }

  /** Once it is reached, the message just handled is the last sent. */
  lemma NewestMoves(p: Projected, l: Ledger, c: Client, child: Bytes, last: Body, b: Body, n: nat)
    requires n < |b.activity| && Evolves(last, b) && b.omitted < U32_MAX
    requires TextsMatch(p, l, c) && Half(p, l, last, b, n) && b.omitted + n + 1 >= Total(last)
    ensures
      var q := b.omitted + n;
      LastSent(SendEntry(p, child, q, b.activity[n]).projected, RecordEntry(l, q, b.activity[n]), q, b.activity[n])
  {
    var q := b.omitted + n;
    if q < Total(last) {
      assert SameEntry(At(last, q), At(b, q), true);
      assert Has(l, q, At(last, q));
    }
  }

  lemma HasAllNext(l: Ledger, last: Body, b: Body, n: nat)
    requires n < |b.activity|
    requires HasAll(l, last, b.omitted + n, Total(last)) && HasAll(l, b, b.omitted, b.omitted + n)
    ensures
      var r := RecordEntry(l, b.omitted + n, b.activity[n]);
      HasAll(r, last, b.omitted + n + 1, Total(last)) && HasAll(r, b, b.omitted, b.omitted + n + 1)
  {
    var q := b.omitted + n;
    var e := b.activity[n];
    var r := RecordEntry(l, q, e);
    forall k: nat | q + 1 <= k < Total(last) && last.omitted <= k ensures Has(r, k, At(last, k)) {
      StillHas(l, q, e, k, At(last, k));
    }
    forall k: nat | b.omitted <= k < q + 1 ensures Has(r, k, At(b, k)) {
      if k == q {
        NowHas(l, q, e);
      } else {
        StillHas(l, q, e, k, At(b, k));
      }
    }
  }

  lemma NextHalf(p: Projected, l: Ledger, c: Client, child: Bytes, last: Body, b: Body, n: nat)
    requires n < |b.activity| && Evolves(last, b) && b.omitted < U32_MAX
    requires Sync(p, l, c) && Half(p, l, last, b, n)
    ensures
      var q := b.omitted + n;
      Half(SendEntry(p, child, q, b.activity[n]).projected, RecordEntry(l, q, b.activity[n]), last, b, n + 1)
  {
    HasAllNext(l, last, b, n);
    if b.omitted + n + 1 < Total(last) {
      NewestStays(p, l, c, child, last, b, n);
    } else {
      NewestMoves(p, l, c, child, last, b, n);
    }
  }

  ghost predicate Midway(p: Projected, l: Ledger, c: Client, last: Body, b: Body, n: nat)
    requires n <= |b.activity|
  {
    Sync(p, l, c) && Half(p, l, last, b, n)
  }

  lemma MidwayNext(p: Projected, l: Ledger, c: Client, child: Bytes, last: Body, b: Body, n: nat)
    requires n < |b.activity| && Evolves(last, b) && b.omitted < U32_MAX
    requires Midway(p, l, c, last, b, n)
    ensures
      var q, e := b.omitted + n, b.activity[n];
      Midway(SendEntry(p, child, q, e).projected, RecordEntry(l, q, e), ReceiveEntry(p, c, child, q, e), last, b, n + 1)
  {
    var q, e := b.omitted + n, b.activity[n];
    assert Sync(SendEntry(p, child, q, e).projected, RecordEntry(l, q, e), ReceiveEntry(p, c, child, q, e)) by {
      NextSendable(p, l, c, last, b, n);
      EntrySync(p, l, c, child, q, e);
    }
    assert Half(SendEntry(p, child, q, e).projected, RecordEntry(l, q, e), last, b, n + 1) by {
      NextHalf(p, l, c, child, last, b, n);
    }
  }

  datatype Stage = Stage(p: Projected, l: Ledger, c: Client)

  function Advance(g: Stage, child: Bytes, q: nat, e: Entry): Stage {
    Stage(SendEntry(g.p, child, q, e).projected, RecordEntry(g.l, q, e), ReceiveEntry(g.p, g.c, child, q, e))
  }

  function StageStep(child: Bytes, b: Body): (Stage, nat) -> Stage {
    (g: Stage, k: nat) => if k < |b.activity| then Advance(g, child, b.omitted + k, b.activity[k]) else g
  }

  /** The projection, the ledger and the client after the first `n` entries. */
  function Stages(g: Stage, child: Bytes, b: Body, n: nat): Stage {
    Iterate(StageStep(child, b), g, n)
  }

  lemma ReceiveNext(before: Sending, c: Client, child: Bytes, q: nat, e: Entry)
    ensures
      var sent := SendEntry(before.projected, child, q, e);
      ReceiveAll(c, before.notices + AsSeq(sent.notice)) ==
        ReceiveEntry(before.projected, ReceiveAll(c, before.notices), child, q, e)
  {
    var notice := SendEntry(before.projected, child, q, e).notice;
    ReceiveJoin(c, before.notices, AsSeq(notice));
    ReceiveOptionIs(ReceiveAll(c, before.notices), notice);
  }

  lemma StageNext(before: Sending, l: Ledger, c: Client, child: Bytes, q: nat, e: Entry, after: Sending)
    requires
      var sent := SendEntry(before.projected, child, q, e);
      after == Sending(sent.projected, before.notices + AsSeq(sent.notice))
    ensures
      Advance(Stage(before.projected, l, ReceiveAll(c, before.notices)), child, q, e)
      == Stage(after.projected, RecordEntry(l, q, e), ReceiveAll(c, after.notices))
  {
    ReceiveNext(before, c, child, q, e);
  }

  lemma {:induction false} StagesAre(g: Stage, child: Bytes, b: Body, n: nat)
    requires n <= |b.activity|
    ensures
      var sent := SendActivity(g.p, child, b, n);
      Stages(g, child, b, n) == Stage(sent.projected, RecordActivity(g.l, b, n), ReceiveAll(g.c, sent.notices))
  {
    if n > 0 {
      StagesAre(g, child, b, n - 1);
      StageNext(SendActivity(g.p, child, b, n - 1), RecordActivity(g.l, b, n - 1), g.c, child, b.omitted + n - 1,
                b.activity[n - 1], SendActivity(g.p, child, b, n));
    }
  }

  ghost predicate GoodStage(g: Stage, last: Body, b: Body, n: nat)
    requires n <= |b.activity|
  {
    Midway(g.p, g.l, g.c, last, b, n)
  }

  lemma GoodAdvance(g: Stage, child: Bytes, last: Body, b: Body, n: nat)
    requires n < |b.activity| && Evolves(last, b) && b.omitted < U32_MAX
    requires GoodStage(g, last, b, n)
    ensures GoodStage(Advance(g, child, b.omitted + n, b.activity[n]), last, b, n + 1)
  {
    MidwayNext(g.p, g.l, g.c, child, last, b, n);
  }

  lemma ActivitySync(g: Stage, child: Bytes, last: Body, b: Body)
    requires Evolves(last, b) && b.omitted < U32_MAX && GoodStage(g, last, b, 0)
    ensures GoodStage(Stages(g, child, b, |b.activity|), last, b, |b.activity|)
  {
    var good := (x: Stage, k: nat) => k <= |b.activity| && GoodStage(x, last, b, k);
    var step := StageStep(child, b);
    forall x: Stage, k: nat | k < |b.activity| && good(x, k) ensures good(step(x, k), k + 1) {
      GoodAdvance(x, child, last, b, k);
    }
    IterateKeeps(step, good, g, |b.activity|, |b.activity|);
  }

  lemma SettledMidway(p: Projected, l: Ledger, c: Client, last: Body, b: Body)
    requires Sync(p, l, c) && Settled(p, l, last)
    ensures Midway(p, l, c, last, b, 0)
  {
  }

  lemma HalfSettled(p: Projected, l: Ledger, last: Body, b: Body)
    requires Half(p, l, last, b, |b.activity|) && Total(last) <= Total(b)
    ensures Settled(p, l, b)
  {
  }

  /* Labels. */

  ghost predicate LabelsMatch(p: Projected, l: Ledger, c: Client) {
    && p.announced == l.announced
    && c.title == l.title && c.description == l.description
    && (l.announced.Some? ==>
          var a := l.announced.value;
          && c.cancel == a.cancel && c.state == Some(a.state)
          && Later(a.title, l.title) == l.title && Later(a.description, l.description) == l.description)
    && p.prompt == l.prompt == c.prompt
    && p.result == l.result == c.result
  }

  function Relabelled(c: Client, a: Announcement): Client {
    c.(title := Later(a.title, c.title), description := Later(a.description, c.description),
       cancel := a.cancel, state := Some(a.state))
  }

  lemma AnnouncementReaches(p: Projected, l: Ledger, c: Client, parent: Bytes, child: Bytes, a: Announcement)
    requires LabelsMatch(p, l, c)
    ensures
      var sent := SendAnnouncement(p, parent, child, a);
      sent.projected == p.(announced := Some(a)) && ReceiveAll(c, sent.notices) == Relabelled(c, a)
  {
    if p.announced != Some(a) {
      ReceiveOne(c, SubagentNotice(parent, child, a));
    }
  }

  lemma PromptReaches(p: Projected, c: Client, parent: Bytes, child: Bytes, prompt: Option<Bytes>)
    requires p.prompt == c.prompt
    ensures
      var sent := SendPrompt(p, parent, child, prompt);
      && sent.projected == p.(prompt := Later(prompt, p.prompt))
      && ReceiveAll(c, sent.notices) == c.(prompt := Later(prompt, c.prompt))
  {
    if prompt.Some? && p.prompt != prompt {
      ReceiveOne(c, PromptNotice(parent, child, prompt.value));
    }
  }

  lemma ResultReaches(p: Projected, c: Client, parent: Bytes, child: Bytes, working: bool, result: Option<Bytes>)
    requires p.result == c.result
    ensures
      var sent := SendResult(p, parent, child, working, result);
      && sent.projected == p.(result := if working then p.result else Later(result, p.result))
      && ReceiveAll(c, sent.notices) == c.(result := if working then c.result else Later(result, c.result))
  {
    if !working && result.Some? && p.result != result {
      ReceiveOne(c, ResultNotice(parent, child, result.value));
    }
  }

  predicate SameLabels(p: Projected, q: Projected) {
    p.revision == q.revision && p.legacy == q.legacy && p.announced == q.announced && p.prompt == q.prompt
      && p.result == q.result
  }

  predicate SameLabelled(c: Client, d: Client) {
    && c.title == d.title && c.description == d.description && c.cancel == d.cancel && c.state == d.state
    && c.prompt == d.prompt && c.result == d.result && c.legacyCalls == d.legacyCalls && c.legacy == d.legacy
  }

  predicate SameRecorded(l: Ledger, r: Ledger) {
    && l.title == r.title && l.description == r.description && l.announced == r.announced
    && l.prompt == r.prompt && l.result == r.result
  }

  predicate SameStageLabels(g: Stage, h: Stage) {
    SameLabels(g.p, h.p) && SameRecorded(g.l, h.l) && SameLabelled(g.c, h.c)
  }

  lemma AdvanceLabels(g: Stage, child: Bytes, q: nat, e: Entry)
    ensures SameStageLabels(g, Advance(g, child, q, e))
  {
  }

  /** Sending activity leaves the labels alone. */
  lemma ActivityLabels(g: Stage, child: Bytes, b: Body)
    ensures SameStageLabels(g, Stages(g, child, b, |b.activity|))
  {
    var good := (x: Stage, k: nat) => SameStageLabels(g, x);
    forall x: Stage, k: nat | k < |b.activity| && good(x, k) ensures good(StageStep(child, b)(x, k), k + 1) {
      AdvanceLabels(x, child, b.omitted + k, b.activity[k]);
    }
    IterateKeeps(StageStep(child, b), good, g, |b.activity|, |b.activity|);
  }

  /* A whole snapshot in the standard form. */

  function LabelStage(g: Stage, r: Reading): Stage {
    Stage(g.p.(announced := Some(r.announcement), prompt := Later(r.prompt, g.p.prompt)),
          RecordLabels(g.l, r),
          Relabelled(g.c, r.announcement).(prompt := Later(r.prompt, g.c.prompt)))
  }

  function ResultStage(g: Stage, r: Reading): Stage {
    g.(p := g.p.(result := if r.working then g.p.result else Later(r.result, g.p.result)),
       c := g.c.(result := if r.working then g.c.result else Later(r.result, g.c.result)))
  }

  function SnapshotStage(g: Stage, child: Bytes, r: Reading, b: Body): Stage {
    ResultStage(Stages(LabelStage(g, r), child, b, |b.activity|), r)
  }

  lemma ReceiveParts(c: Client, w: seq<Notice>, x: seq<Notice>, y: seq<Notice>, z: seq<Notice>)
    ensures ReceiveAll(c, w + x + y + z) == ReceiveAll(ReceiveAll(ReceiveAll(ReceiveAll(c, w), x), y), z)
  {
    ReceiveJoin(c, w + x + y, z);
    ReceiveJoin(c, w + x, y);
    ReceiveJoin(c, w, x);
  }

  lemma LabelsReach(g: Stage, parent: Bytes, child: Bytes, r: Reading)
    requires LabelsMatch(g.p, g.l, g.c)
    ensures
      var announced := SendAnnouncement(g.p, parent, child, r.announcement);
      var prompted := SendPrompt(announced.projected, parent, child, r.prompt);
      && prompted.projected == LabelStage(g, r).p
      && ReceiveAll(ReceiveAll(g.c, announced.notices), prompted.notices) == LabelStage(g, r).c
  {
    var announced := SendAnnouncement(g.p, parent, child, r.announcement);
    AnnouncementReaches(g.p, g.l, g.c, parent, child, r.announcement);
    PromptReaches(announced.projected, ReceiveAll(g.c, announced.notices), parent, child, r.prompt);
  }

  lemma SnapshotStageIs(g: Stage, root: Bytes, child: Bytes, r: Reading, b: Body)
    requires LabelsMatch(g.p, g.l, g.c)
    ensures
      var sent := Standard(g.p, root, child, r, b);
      SnapshotStage(g, child, r, b) == Stage(sent.projected, Record(g.l, r, b), ReceiveAll(g.c, sent.notices))
  {
    var parent := if r.parent.Some? then r.parent.value else root;
    var announced := SendAnnouncement(g.p, parent, child, r.announcement);
    var prompted := SendPrompt(announced.projected, parent, child, r.prompt);
    var active := SendActivity(prompted.projected, child, b, |b.activity|);
    var resulted := SendResult(active.projected, parent, child, r.working, r.result);
    LabelsReach(g, parent, child, r);
    var h := LabelStage(g, r);
    StagesAre(h, child, b, |b.activity|);
    ActivityLabels(h, child, b);
    ResultReaches(active.projected, ReceiveAll(h.c, active.notices), parent, child, r.working, r.result);
    ReceiveParts(g.c, announced.notices, prompted.notices, active.notices, resulted.notices);
  }

  /** The client is where the ledger is after snapshot `last`. */
  ghost predicate Synced(g: Stage, last: Body) {
    Sync(g.p, g.l, g.c) && LabelsMatch(g.p, g.l, g.c) && Settled(g.p, g.l, last)
  }

  lemma LabelStageGood(g: Stage, r: Reading, last: Body, b: Body)
    requires Synced(g, last)
    ensures GoodStage(LabelStage(g, r), last, b, 0)
  {
    var h := LabelStage(g, r);
    assert Sync(h.p, h.l, h.c) by {
      TextsUntouched(g.p, g.l, g.c, h.p, h.l, h.c);
    }
    assert Settled(h.p, h.l, last) by {
      assert forall q: nat :: last.omitted <= q < Total(last) && Has(g.l, q, At(last, q)) ==> Has(h.l, q, At(last, q));
    }
    SettledMidway(h.p, h.l, h.c, last, b);
  }

  lemma ResultStageSynced(g: Stage, h: Stage, r: Reading, last: Body, b: Body)
    requires LabelsMatch(g.p, g.l, g.c) && SameStageLabels(LabelStage(g, r), h)
    requires GoodStage(h, last, b, |b.activity|) && Total(last) <= Total(b)
    ensures Synced(ResultStage(h, r), b)
  {
    var e := ResultStage(h, r);
    HalfSettled(h.p, h.l, last, b);
    assert Sync(e.p, e.l, e.c) by {
      TextsUntouched(h.p, h.l, h.c, e.p, e.l, e.c);
    }
  }

  lemma SnapshotSynced(g: Stage, child: Bytes, r: Reading, last: Body, b: Body)
    requires Synced(g, last) && Evolves(last, b) && b.omitted < U32_MAX
    ensures Synced(SnapshotStage(g, child, r, b), b)
  {
    LabelStageGood(g, r, last, b);
    ActivitySync(LabelStage(g, r), child, last, b);
    ActivityLabels(LabelStage(g, r), child, b);
    ResultStageSynced(g, Stages(LabelStage(g, r), child, b, |b.activity|), r, last, b);
  }
}
