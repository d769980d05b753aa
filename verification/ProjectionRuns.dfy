/** Any deliveries of a child's snapshots, in any order, as the client receives them. */
module ProjectionRuns {
  import opened Results
  import opened Texts
  import opened SubagentFold
  import opened SubagentLaws
  import opened SubagentRuns
  import opened Iteration
  import opened Projection
  import opened ProjectionLaws

  /** One snapshot, as the bridge reads it. */
  datatype Delivery = Delivery(revision: nat, reading: Reading, body: Body)

  function SendAll(root: Bytes, child: Bytes, ds: seq<Delivery>, standard: bool): Sending {
    if ds == [] then Sending(FRESH, [])
    else
      var before := SendAll(root, child, ds[..|ds| - 1], standard);
      var d := ds[|ds| - 1];
      var sent := Send(before.projected, root, child, d.revision, d.reading, d.body, standard);
      Sending(sent.projected, before.notices + sent.notices)
  }

  function ClientOf(root: Bytes, child: Bytes, ds: seq<Delivery>, standard: bool): Client {
    ReceiveAll(NEW_CLIENT, SendAll(root, child, ds, standard).notices)
  }

  /** The deliveries that are not older than one before them. */
  function Kept(ds: seq<Delivery>): seq<Delivery> {
    if ds == [] then []
    else
      var before := Kept(ds[..|ds| - 1]);
      var d := ds[|ds| - 1];
      if before != [] && d.revision < before[|before| - 1].revision then before else before + [d]
  }

  function LedgerOf(ks: seq<Delivery>): Ledger {
    if ks == [] then NO_LEDGER
    else Record(LedgerOf(ks[..|ks| - 1]), ks[|ks| - 1].reading, ks[|ks| - 1].body)
  }

  const NOTHING := Body(None, None, None, None, None, None, false, None, None, 0, 0, [], 0, None, None, true)

  function LastBody(ks: seq<Delivery>): Body {
    if ks == [] then NOTHING else ks[|ks| - 1].body
  }

  function LastRevision(ks: seq<Delivery>): nat {
    if ks == [] then 0 else ks[|ks| - 1].revision
  }

  /** Each kept snapshot is a later view of the one before it. */
  ghost predicate Chained(ks: seq<Delivery>) {
    && (forall i :: 0 < i < |ks| ==> Evolves(ks[i - 1].body, ks[i].body))
    && (forall i :: 0 <= i < |ks| ==> ks[i].body.omitted < U32_MAX)
  }

  function RunStage(root: Bytes, child: Bytes, ds: seq<Delivery>): Stage {
    Stage(SendAll(root, child, ds, true).projected, LedgerOf(Kept(ds)), ClientOf(root, child, ds, true))
  }

  lemma RevisionIgnored(g: Stage, revision: nat, last: Body)
    requires Synced(g, last)
    ensures Synced(g.(p := g.p.(revision := revision)), last)
  {
    TextsUntouched(g.p, g.l, g.c, g.p.(revision := revision), g.l, g.c);
  }

  lemma KeptChained(ds: seq<Delivery>)
    requires ds != [] && Chained(Kept(ds))
    ensures Chained(Kept(ds[..|ds| - 1]))
  {
    var before, d := Kept(ds[..|ds| - 1]), ds[|ds| - 1];
    if Kept(ds) != before {
      assert Kept(ds) == before + [d];
      ChainedPrefix(before, d);
    }
  }

  lemma ChainedPrefix(ks: seq<Delivery>, d: Delivery)
    requires Chained(ks + [d])
    ensures Chained(ks)
  {
    assert forall i :: 0 <= i < |ks| ==> (ks + [d])[i] == ks[i];
  }

  lemma StandardStep(g: Stage, root: Bytes, child: Bytes, d: Delivery, last: Body)
    requires Synced(g, last) && Evolves(last, d.body) && d.body.omitted < U32_MAX
    ensures
      var sent := Standard(g.p.(revision := d.revision), root, child, d.reading, d.body);
      Synced(Stage(sent.projected, Record(g.l, d.reading, d.body), ReceiveAll(g.c, sent.notices)), d.body)
  {
    var h := g.(p := g.p.(revision := d.revision));
    RevisionIgnored(g, d.revision, last);
    SnapshotStageIs(h, root, child, d.reading, d.body);
    SnapshotSynced(h, child, d.reading, last, d.body);
  }

  lemma StandardRevision(p: Projected, root: Bytes, child: Bytes, r: Reading, b: Body)
    ensures Standard(p, root, child, r, b).projected.revision == p.revision
  {
    var good := (x: Sending, k: nat) => x.projected.revision == p.revision;
    var parent := if r.parent.Some? then r.parent.value else root;
    var announced := SendAnnouncement(p, parent, child, r.announcement);
    var prompted := SendPrompt(announced.projected, parent, child, r.prompt);
    IterateKeeps(SendStep(child, b), good, Sending(prompted.projected, []), |b.activity|, |b.activity|);
  }

  lemma {:induction false} RunSynced(root: Bytes, child: Bytes, ds: seq<Delivery>)
    requires Chained(Kept(ds))
    ensures Synced(RunStage(root, child, ds), LastBody(Kept(ds)))
    ensures RunStage(root, child, ds).p.revision == LastRevision(Kept(ds))
  {
    if ds == [] {
      FreshSynced();
    } else {
      var init, d := ds[..|ds| - 1], ds[|ds| - 1];
      KeptChained(ds);
      RunSynced(root, child, init);
      RunStep(root, child, init, d, ds);
    }
  }

  lemma FreshSynced()
    ensures Synced(Stage(FRESH, NO_LEDGER, NEW_CLIENT), NOTHING)
  {
    assert TextsAgree(NEW_CLIENT, NO_LEDGER);
  }

  lemma StaleStage(root: Bytes, child: Bytes, init: seq<Delivery>, d: Delivery, ds: seq<Delivery>)
    requires ds != [] && init == ds[..|ds| - 1] && d == ds[|ds| - 1]
    requires RunStage(root, child, init).p.revision == LastRevision(Kept(init))
    requires d.revision < LastRevision(Kept(init))
    ensures Kept(ds) == Kept(init) && RunStage(root, child, ds) == RunStage(root, child, init)
  {
    var before := SendAll(root, child, init, true);
    assert before.notices + [] == before.notices;
  }

  lemma KeptStage(root: Bytes, child: Bytes, init: seq<Delivery>, d: Delivery, ds: seq<Delivery>)
    requires ds != [] && init == ds[..|ds| - 1] && d == ds[|ds| - 1]
    requires RunStage(root, child, init).p.revision == LastRevision(Kept(init))
    requires d.revision >= LastRevision(Kept(init))
    ensures Kept(ds) == Kept(init) + [d]
    ensures
      var g := RunStage(root, child, init);
      var sent := Standard(g.p.(revision := d.revision), root, child, d.reading, d.body);
      RunStage(root, child, ds) == Stage(sent.projected, Record(g.l, d.reading, d.body), ReceiveAll(g.c, sent.notices))
  {
    var before := SendAll(root, child, init, true);
    var sent := Send(before.projected, root, child, d.revision, d.reading, d.body, true);
    assert Kept(ds)[..|Kept(ds)| - 1] == Kept(init);
    ReceiveJoin(NEW_CLIENT, before.notices, sent.notices);
  }

  lemma LastEvolves(ks: seq<Delivery>, d: Delivery)
    requires Chained(ks + [d])
    ensures Evolves(LastBody(ks), d.body) && d.body.omitted < U32_MAX
  {
    assert (ks + [d])[|ks|] == d;
    if ks != [] {
      assert (ks + [d])[|ks| - 1] == ks[|ks| - 1];
    }
  }

  lemma RunStep(root: Bytes, child: Bytes, init: seq<Delivery>, d: Delivery, ds: seq<Delivery>)
    requires ds != [] && init == ds[..|ds| - 1] && d == ds[|ds| - 1] && Chained(Kept(ds))
    requires Synced(RunStage(root, child, init), LastBody(Kept(init)))
    requires RunStage(root, child, init).p.revision == LastRevision(Kept(init))
    ensures Synced(RunStage(root, child, ds), LastBody(Kept(ds)))
    ensures RunStage(root, child, ds).p.revision == LastRevision(Kept(ds))
  {
    if d.revision < LastRevision(Kept(init)) {
      StaleStage(root, child, init, d, ds);
    } else {
      var g := RunStage(root, child, init);
      KeptStage(root, child, init, d, ds);
      LastEvolves(Kept(init), d);
      StandardStep(g, root, child, d, LastBody(Kept(init)));
      StandardRevision(g.p.(revision := d.revision), root, child, d.reading, d.body);
    }
  }

  /* What all kept snapshots together say, those of entries long out of the window included. */

  function FirstOf(before: Option<Bytes>, next: Option<Bytes>): Option<Bytes> {
    if before.Some? then before else next
  }

  /** The text of the message at absolute position `q`, when it is among the first `n` entries of `b`. */
  function Shows(b: Body, q: nat, n: nat): Option<Bytes>
    requires n <= |b.activity|
  {
    if b.omitted <= q < b.omitted + n && b.activity[q - b.omitted].MessageEntry? then
      Some(b.activity[q - b.omitted].text)
    else None
  }

  /** The text with which the message at `q` was first shown. */
  function FirstShown(ks: seq<Delivery>, q: nat): Option<Bytes> {
    if ks == [] then None
    else FirstOf(FirstShown(ks[..|ks| - 1], q), Shows(LastBody(ks), q, |LastBody(ks).activity|))
  }

  /** The text with which the message at `q` was last shown. */
  function LastShown(ks: seq<Delivery>, q: nat): Option<Bytes> {
    if ks == [] then None
    else Later(Shows(LastBody(ks), q, |LastBody(ks).activity|), LastShown(ks[..|ks| - 1], q))
  }

  /** The status of tool `id` in the last of its entries among the first `n`. */
  function StatusIn(b: Body, id: Bytes, n: nat): Option<Bytes>
    requires n <= |b.activity|
  {
    if n == 0 then None
    else
      var e := b.activity[n - 1];
      if e.ToolEntry? && e.id == id then Some(e.status) else StatusIn(b, id, n - 1)
  }

  /** The status with which tool `id` was last shown. */
  function LastStatus(ks: seq<Delivery>, id: Bytes): Option<Bytes> {
    if ks == [] then None
    else Later(StatusIn(LastBody(ks), id, |LastBody(ks).activity|), LastStatus(ks[..|ks| - 1], id))
  }

  /** What was last said of a label; a snapshot without it says nothing. */
  function LastSaid(ks: seq<Delivery>, say: Reading -> Option<Bytes>): Option<Bytes> {
    if ks == [] then None else Later(say(ks[|ks| - 1].reading), LastSaid(ks[..|ks| - 1], say))
  }

  function TitleOf(r: Reading): Option<Bytes> {
    r.announcement.title
  }

  function DescriptionOf(r: Reading): Option<Bytes> {
    r.announcement.description
  }

  function PromptOf(r: Reading): Option<Bytes> {
    r.prompt
  }

  /** A child that works has no result yet. */
  function ResultOf(r: Reading): Option<Bytes> {
    if r.working then None else r.result
  }

  /** The ledger has the last text at `q` once one was shown, and mutes it if the first was empty. */
  predicate Heard(l: Ledger, q: nat, first: Option<Bytes>, last: Option<Bytes>) {
    && (q in l.texts <==> first.Some?) && (q in l.muted <==> first == Some([]))
    && (if q in l.texts then last == Some(l.texts[q]) else last.None?)
  }

  lemma HeardNext(l: Ledger, b: Body, n: nat, q: nat, first: Option<Bytes>, last: Option<Bytes>)
    requires n < |b.activity| && Heard(l, q, FirstOf(first, Shows(b, q, n)), Later(Shows(b, q, n), last))
    ensures
      var r := RecordEntry(l, b.omitted + n, b.activity[n]);
      Heard(r, q, FirstOf(first, Shows(b, q, n + 1)), Later(Shows(b, q, n + 1), last))
  {
  }

  lemma HeardActivity(l: Ledger, b: Body, q: nat, first: Option<Bytes>, last: Option<Bytes>)
    requires Heard(l, q, first, last)
    ensures
      var shown := Shows(b, q, |b.activity|);
      Heard(RecordActivity(l, b, |b.activity|), q, FirstOf(first, shown), Later(shown, last))
  {
    var good := (x: Ledger, k: nat) =>
      k <= |b.activity| && Heard(x, q, FirstOf(first, Shows(b, q, k)), Later(Shows(b, q, k), last));
    forall x: Ledger, k: nat | k < |b.activity| && good(x, k) ensures good(RecordStep(b)(x, k), k + 1) {
      HeardNext(x, b, k, q, first, last);
    }
    assert Shows(b, q, 0).None? && FirstOf(first, None) == first && Later(None, last) == last;
    assert good(l, 0);
    IterateKeeps(RecordStep(b), good, l, |b.activity|, |b.activity|);
  }

  lemma {:induction false} LedgerHeard(ks: seq<Delivery>, q: nat)
    ensures Heard(LedgerOf(ks), q, FirstShown(ks, q), LastShown(ks, q))
  {
    if ks != [] {
      var init, d := ks[..|ks| - 1], ks[|ks| - 1];
      LedgerHeard(init, q);
      HeardActivity(RecordLabels(LedgerOf(init), d.reading), d.body, q, FirstShown(init, q), LastShown(init, q));
    }
  }

  /** The ledger knows a tool once it was shown, with the status it was last shown with. */
  predicate Known(tools: map<Bytes, Bytes>, id: Bytes, status: Option<Bytes>) {
    if id in tools then status == Some(tools[id]) else status.None?
  }

  lemma KnownActivity(l: Ledger, b: Body, id: Bytes, before: Option<Bytes>)
    requires Known(l.tools, id, before)
    ensures Known(RecordActivity(l, b, |b.activity|).tools, id, Later(StatusIn(b, id, |b.activity|), before))
  {
    var good := (x: Ledger, k: nat) => k <= |b.activity| && Known(x.tools, id, Later(StatusIn(b, id, k), before));
    forall x: Ledger, k: nat | k < |b.activity| && good(x, k) ensures good(RecordStep(b)(x, k), k + 1) {
    }
    IterateKeeps(RecordStep(b), good, l, |b.activity|, |b.activity|);
  }

  lemma {:induction false} LedgerKnown(ks: seq<Delivery>, id: Bytes)
    ensures Known(LedgerOf(ks).tools, id, LastStatus(ks, id))
  {
    if ks != [] {
      var init, d := ks[..|ks| - 1], ks[|ks| - 1];
      LedgerKnown(init, id);
      KnownActivity(RecordLabels(LedgerOf(init), d.reading), d.body, id, LastStatus(init, id));
    }
  }

  lemma RecordedLabels(l: Ledger, b: Body)
    ensures SameRecorded(l, RecordActivity(l, b, |b.activity|))
  {
    var good := (x: Ledger, k: nat) => SameRecorded(l, x);
    IterateKeeps(RecordStep(b), good, l, |b.activity|, |b.activity|);
  }

  predicate Labelled(l: Ledger, ks: seq<Delivery>) {
    && l.title == LastSaid(ks, TitleOf) && l.description == LastSaid(ks, DescriptionOf)
    && l.prompt == LastSaid(ks, PromptOf) && l.result == LastSaid(ks, ResultOf)
    && (ks != [] ==> l.announced == Some(ks[|ks| - 1].reading.announcement))
  }

  lemma {:induction false} LedgerLabelled(ks: seq<Delivery>)
    ensures Labelled(LedgerOf(ks), ks)
  {
    if ks != [] {
      var init, k := ks[..|ks| - 1], ks[|ks| - 1];
      LedgerLabelled(init);
      RecordedLabels(RecordLabels(LedgerOf(init), k.reading), k.body);
    }
  }

  /* The main result. */

  /** A tool was announced once if it was ever shown, never otherwise, and shows the status it was last shown with. */
  predicate ToolRefined(c: Client, ks: seq<Delivery>, id: Bytes) {
    c.announced[id] == (if LastStatus(ks, id).Some? then 1 else 0) && Known(c.tools, id, LastStatus(ks, id))
  }

  /** The chunks of a message add up to the text it was last shown with, unless it was first shown empty. */
  predicate TextRefined(c: Client, ks: seq<Delivery>, q: nat) {
    Sent(c, q) == if LastShown(ks, q).None? || FirstShown(ks, q) == Some([]) then [] else LastShown(ks, q).value
  }

  predicate LabelsRefined(c: Client, ks: seq<Delivery>) {
    && c.title == LastSaid(ks, TitleOf) && c.description == LastSaid(ks, DescriptionOf)
    && c.prompt == LastSaid(ks, PromptOf) && c.result == LastSaid(ks, ResultOf)
    && (ks != [] ==>
          var a := ks[|ks| - 1].reading.announcement;
          c.cancel == a.cancel && c.state == Some(a.state))
  }

  /**
   * What a standard client holds is what the kept snapshots said, of every tool and every position they ever showed.
   */
  ghost predicate Refines(c: Client, ks: seq<Delivery>) {
    && (forall id: Bytes :: ToolRefined(c, ks, id))
    && (forall q: nat :: TextRefined(c, ks, q))
    && LabelsRefined(c, ks)
  }

  lemma SyncedTool(g: Stage, ks: seq<Delivery>, id: Bytes)
    requires ToolsMatch(g.p, g.l, g.c) && g.l == LedgerOf(ks)
    ensures ToolRefined(g.c, ks, id)
  {
    LedgerKnown(ks, id);
  }

  lemma SyncedText(g: Stage, ks: seq<Delivery>, q: nat)
    requires TextsAgree(g.c, g.l) && g.l == LedgerOf(ks)
    ensures TextRefined(g.c, ks, q)
  {
    LedgerHeard(ks, q);
    assert Sent(g.c, q) == Audible(g.l, q);
  }

  lemma SyncedLabels(g: Stage, ks: seq<Delivery>)
    requires LabelsMatch(g.p, g.l, g.c) && g.l == LedgerOf(ks)
    ensures LabelsRefined(g.c, ks)
  {
    LedgerLabelled(ks);
  }

  /**
   * Whatever snapshots of a child are delivered, if those that are not stale are later and later views of it, a
   * standard client has announced each tool that any of them showed once, and no other; it shows the last status of
   * each; and it holds the whole text of each message any of them showed, except one first shown empty. Title,
   * description, prompt and result are those last said.
   */
  lemma DeltasRefine(root: Bytes, child: Bytes, ds: seq<Delivery>)
    requires Chained(Kept(ds))
    ensures Refines(ClientOf(root, child, ds, true), Kept(ds))
  {
    var g, ks := RunStage(root, child, ds), Kept(ds);
    RunSynced(root, child, ds);
    forall id: Bytes ensures ToolRefined(g.c, ks, id) {
      SyncedTool(g, ks, id);
    }
    forall q: nat ensures TextRefined(g.c, ks, q) {
      SyncedText(g, ks, q);
    }
    SyncedLabels(g, ks);
  }

  /** What the latest snapshot shows is what was last shown: the refinement covers its whole window. */
  lemma LatestShown(ks: seq<Delivery>, i: nat)
    requires ks != [] && i < |LastBody(ks).activity|
    ensures
      var b, e := LastBody(ks), LastBody(ks).activity[i];
      if e.MessageEntry? then LastShown(ks, b.omitted + i) == Some(e.text)
      else LastStatus(ks, e.id).Some? && LastStatus(ks, e.id) == StatusIn(b, e.id, |b.activity|)
  {
    var b := LastBody(ks);
    if b.activity[i].ToolEntry? {
      StatusHas(b, i, |b.activity|);
    }
  }

  lemma {:induction false} StatusHas(b: Body, i: nat, n: nat)
    requires i < n <= |b.activity| && b.activity[i].ToolEntry?
    ensures StatusIn(b, b.activity[i].id, n).Some?
  {
    if n - 1 != i {
      StatusHas(b, i, n - 1);
    }
  }

  /** Two deliveries, the second a later view than the first. */
  lemma TwoKept(d: Delivery, e: Delivery)
    requires d.revision <= e.revision && Evolves(d.body, e.body) && d.body.omitted <= e.body.omitted < U32_MAX
    ensures Kept([d, e]) == [d, e] && Chained([d, e])
    ensures [d, e][..1] == [d] && [d][..0] == []
  {
    assert [d, e][..1] == [d] && [d][..0] == [];
    assert Kept([d]) == [d];
  }

  lemma TwoShown(d: Delivery, e: Delivery, q: nat)
    ensures FirstShown([d, e], q) == FirstOf(Shows(d.body, q, |d.body.activity|), Shows(e.body, q, |e.body.activity|))
    ensures LastShown([d, e], q) == Later(Shows(e.body, q, |e.body.activity|), Shows(d.body, q, |d.body.activity|))
  {
    assert [d, e][..1] == [d] && [d][..0] == [];
    assert FirstShown([d], q) == Shows(d.body, q, |d.body.activity|) == LastShown([d], q);
  }

  function OneMessage(text: Bytes): Body {
    NOTHING.(activity := [MessageEntry(text)])
  }

  /** A message first shown without text stays without text at the client, whatever it says later. */
  lemma EmptyStaysSilent(root: Bytes, child: Bytes, r: Reading, text: Bytes)
    ensures
      var ds := [Delivery(1, r, OneMessage([])), Delivery(2, r, OneMessage(text))];
      LastShown(Kept(ds), 0) == Some(text) && Sent(ClientOf(root, child, ds, true), 0) == []
  {
    var d, e := Delivery(1, r, OneMessage([])), Delivery(2, r, OneMessage(text));
    TwoKept(d, e);
    TwoShown(d, e, 0);
    assert TextRefined(ClientOf(root, child, [d, e], true), [d, e], 0) by {
      DeltasRefine(root, child, [d, e]);
    }
  }

  /* Labels that an update can only replace. */

  /**
   * What was last said of a label is what the latest snapshot says if it says anything, or if nothing ever was said.
   */
  lemma {:induction false} SaidIff(ks: seq<Delivery>, say: Reading -> Option<Bytes>)
    ensures LastSaid(ks, say).None? <==> forall i :: 0 <= i < |ks| ==> say(ks[i].reading).None?
    ensures ks != [] ==>
      var now := say(ks[|ks| - 1].reading);
      LastSaid(ks, say) == now <==> now.Some? || forall i :: 0 <= i < |ks| ==> say(ks[i].reading).None?
  {
    if ks != [] {
      var init := ks[..|ks| - 1];
      SaidIff(init, say);
      assert forall i :: 0 <= i < |init| ==> ks[i] == init[i];
    }
  }

  /** The latest snapshot gives the say, or none ever did. */
  predicate GivenOrNever(ks: seq<Delivery>, say: Reading -> Option<Bytes>)
    requires ks != []
  {
    say(ks[|ks| - 1].reading).Some? || forall i :: 0 <= i < |ks| ==> say(ks[i].reading).None?
  }

  /** A cleared label is not cleared at the client: it is current exactly when it is given or never was. */
  lemma LabelsCurrentIff(root: Bytes, child: Bytes, ds: seq<Delivery>)
    requires Chained(Kept(ds)) && Kept(ds) != []
    ensures
      var c, ks := ClientOf(root, child, ds, true), Kept(ds);
      var now := ks[|ks| - 1].reading;
      && (c.title == TitleOf(now) <==> GivenOrNever(ks, TitleOf))
      && (c.description == DescriptionOf(now) <==> GivenOrNever(ks, DescriptionOf))
      && (c.prompt == PromptOf(now) <==> GivenOrNever(ks, PromptOf))
      && (c.result == ResultOf(now) <==> GivenOrNever(ks, ResultOf))
  {
    var c, ks := ClientOf(root, child, ds, true), Kept(ds);
    assert LabelsRefined(c, ks) by {
      DeltasRefine(root, child, ds);
    }
    CurrentIff(c.title, ks, TitleOf);
    CurrentIff(c.description, ks, DescriptionOf);
    CurrentIff(c.prompt, ks, PromptOf);
    CurrentIff(c.result, ks, ResultOf);
  }

  lemma CurrentIff(shown: Option<Bytes>, ks: seq<Delivery>, say: Reading -> Option<Bytes>)
    requires ks != [] && shown == LastSaid(ks, say)
    ensures shown == say(ks[|ks| - 1].reading) <==> GivenOrNever(ks, say)
  {
    SaidIff(ks, say);
  }

  /**
   * A finished child with a title, a description and a result is seen again without them: the client keeps all three.
   */
  lemma ClearedLabelsStay(root: Bytes, child: Bytes)
    ensures
      var a := Some([0x61]);
      var full := Reading(None, Announcement(a, a, false, StandardIdle(None, None)), None, false, a,
        LegacyFields([], InProgress, []));
      var bare := full.(announcement := Announcement(None, None, false, StandardRunning), working := true);
      var c := ClientOf(root, child, [Delivery(1, full, NOTHING), Delivery(2, bare, NOTHING)], true);
      && c.title == a && c.description == a && c.result == a
      && TitleOf(bare).None? && DescriptionOf(bare).None? && ResultOf(bare).None?
  {
    var a := Some([0x61]);
    var full := Reading(None, Announcement(a, a, false, StandardIdle(None, None)), None, false, a,
      LegacyFields([], InProgress, []));
    var bare := full.(announcement := Announcement(None, None, false, StandardRunning), working := true);
    var d, e := Delivery(1, full, NOTHING), Delivery(2, bare, NOTHING);
    EvolvesSame(NOTHING, NOTHING);
    TwoKept(d, e);
    assert LabelsRefined(ClientOf(root, child, [d, e], true), [d, e]) by {
      DeltasRefine(root, child, [d, e]);
    }
    assert LastSaid([d], TitleOf) == a && LastSaid([d], DescriptionOf) == a && LastSaid([d], ResultOf) == a;
  }

  /* The legacy form. */

  /** One tool call was sent, and its fields are those of the last kept snapshot. */
  predicate LegacyShown(p: Projected, c: Client, ks: seq<Delivery>) {
    && p.legacy == c.legacy == (if ks == [] then None else Some(ks[|ks| - 1].reading.legacy))
    && c.legacyCalls == (if ks == [] then 0 else 1)
    && p.revision == LastRevision(ks)
  }

  lemma LegacyStep(p: Projected, c: Client, ks: seq<Delivery>, root: Bytes, child: Bytes, d: Delivery)
    requires LegacyShown(p, c, ks)
    ensures
      var sent := Send(p, root, child, d.revision, d.reading, d.body, false);
      LegacyShown(sent.projected, ReceiveAll(c, sent.notices), if d.revision < LastRevision(ks) then ks else ks + [d])
  {
    var sent := Send(p, root, child, d.revision, d.reading, d.body, false);
    if sent.notices != [] {
      ReceiveOne(c, sent.notices[0]);
      assert sent.notices == [sent.notices[0]];
    }
  }

  /** A legacy client sees one tool call, showing the last snapshot that is not stale. */
  lemma {:induction false} LegacyMirrors(root: Bytes, child: Bytes, ds: seq<Delivery>)
    ensures LegacyShown(SendAll(root, child, ds, false).projected, ClientOf(root, child, ds, false), Kept(ds))
  {
    if ds != [] {
      var init, d := ds[..|ds| - 1], ds[|ds| - 1];
      LegacyMirrors(root, child, init);
      var before := SendAll(root, child, init, false);
      LegacyStep(before.projected, ClientOf(root, child, init, false), Kept(init), root, child, d);
      ReceiveJoin(NEW_CLIENT, before.notices,
        Send(before.projected, root, child, d.revision, d.reading, d.body, false).notices);
    }
  }

  /* Snapshots published by the fold. */

  /** Of any two of the deliveries, the one of the later revision is a later view. */
  ghost predicate Compatible(ds: seq<Delivery>) {
    && (forall i, j :: 0 <= i < |ds| && 0 <= j < |ds| && ds[i].revision <= ds[j].revision ==>
      Evolves(ds[i].body, ds[j].body))
    && (forall i :: 0 <= i < |ds| ==> ds[i].body.omitted < U32_MAX)
  }

  lemma {:induction false} KeptRises(ds: seq<Delivery>)
    ensures forall k :: k in Kept(ds) ==> k in ds
    ensures forall i :: 0 < i < |Kept(ds)| ==> Kept(ds)[i - 1].revision <= Kept(ds)[i].revision
    ensures ds != [] ==> Kept(ds) != []
  {
    if ds != [] {
      KeptRises(ds[..|ds| - 1]);
    }
  }

  lemma CompatibleChained(ds: seq<Delivery>)
    requires Compatible(ds)
    ensures Chained(Kept(ds))
  {
    KeptRises(ds);
    var ks := Kept(ds);
    forall i | 0 < i < |ks| ensures Evolves(ks[i - 1].body, ks[i].body) {
      assert ks[i - 1] in ds && ks[i] in ds;
      var m: nat :| m < |ds| && ds[m] == ks[i - 1];
      var n: nat :| n < |ds| && ds[n] == ks[i];
      assert Evolves(ds[m].body, ds[n].body);
    }
    forall i | 0 <= i < |ks| ensures ks[i].body.omitted < U32_MAX {
      assert ks[i] in ds;
    }
  }

  /** The positions in the log of snapshots of `id` published since it was last announced as new. */
  ghost predicate OfLifetime(t: Trace, id: Bytes, i: nat) {
    id in t.born && t.born[id] <= i < |t.log| && t.log[i].Some? && t.log[i].value.id == id
  }

  ghost predicate AllOfLifetime(t: Trace, id: Bytes, picks: seq<nat>) {
    forall j :: 0 <= j < |picks| ==> OfLifetime(t, id, picks[j])
  }

  ghost function Picked(t: Trace, id: Bytes, picks: seq<nat>, read: Body -> Reading): (ds: seq<Delivery>)
    requires AllOfLifetime(t, id, picks)
    ensures |ds| == |picks|
    ensures forall j :: 0 <= j < |picks| ==>
      t.log[picks[j]].Some? && ds[j].revision == t.log[picks[j]].value.revision
        && ds[j].body == t.log[picks[j]].value.body
  {
    seq(|picks|, j requires 0 <= j < |picks| =>
      var s := t.log[picks[j]].value;
      Delivery(s.revision, read(s.body), s.body))
  }

  lemma LifetimeEvolves(t: Trace, id: Bytes, i: nat, j: nat)
    requires Inv(t, {}) && id in t.state.children && OfLifetime(t, id, i) && OfLifetime(t, id, j)
    requires t.log[i].value.revision <= t.log[j].value.revision
    ensures Evolves(t.log[i].value.body, t.log[j].value.body)
    ensures t.log[i].value.body.omitted <= t.state.children[id].omitted
  {
    assert Tracked(t.log, t.born[id], id, t.state.children[id], id in {});
    if i == j {
      EvolvesSame(t.log[i].value.body, t.log[j].value.body);
    }
  }

  lemma PickedCompatible(t: Trace, id: Bytes, picks: seq<nat>, read: Body -> Reading)
    requires Inv(t, {}) && id in t.state.children && t.state.children[id].omitted < U32_MAX
    requires AllOfLifetime(t, id, picks)
    ensures Compatible(Picked(t, id, picks, read))
  {
    var ds := Picked(t, id, picks, read);
    forall i, j | 0 <= i < |ds| && 0 <= j < |ds| && ds[i].revision <= ds[j].revision
      ensures Evolves(ds[i].body, ds[j].body)
    {
      LifetimeEvolves(t, id, picks[i], picks[j]);
    }
    forall i | 0 <= i < |ds| ensures ds[i].body.omitted < U32_MAX {
      LifetimeEvolves(t, id, picks[i], picks[i]);
    }
  }

  /**
   * From the adapter to the client: whichever snapshots of a kept child reach the bridge, in whatever order and
   * however often, the client ends up with what the latest of them shows.
   */
  lemma FoldThenProject(steps: seq<Step>, id: Bytes, picks: seq<nat>, read: Body -> Reading, root: Bytes)
    requires id in Exec(START, steps).state.children && Exec(START, steps).state.children[id].omitted < U32_MAX
    requires picks != [] && AllOfLifetime(Exec(START, steps), id, picks)
    ensures
      var ds := Picked(Exec(START, steps), id, picks, read);
      && Kept(ds) != []
      && (forall d :: d in ds ==> d.revision <= LastRevision(Kept(ds)))
      && Refines(ClientOf(root, id, ds, true), Kept(ds))
  {
    var t := Exec(START, steps);
    var ds := Picked(t, id, picks, read);
    RunKeeps(steps);
    PickedCompatible(t, id, picks, read);
    CompatibleChained(ds);
    KeptRises(ds);
    KeptLatest(ds);
    DeltasRefine(root, id, ds);
  }

  lemma {:induction false} KeptLatest(ds: seq<Delivery>)
    ensures forall d :: d in ds ==> d.revision <= LastRevision(Kept(ds))
  {
    if ds != [] {
      KeptLatest(ds[..|ds| - 1]);
    }
  }
}
