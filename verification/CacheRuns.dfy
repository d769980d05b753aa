/** What the bridge caches of a session, over every run. */
module CacheRuns {
  import opened Results
  import opened Transcript
  import opened Cache
  import opened Reconnect

  /** The cached events are the log from `f` to `k`, and `k` is where the session's position is. */
  ghost predicate StretchAt(w: World, f: nat, k: nat) {
    f <= k <= |w.log| && w.session.lastSeq == At(w.log, k) && StoredAll(w.session.events) == w.log[f..k]
  }

  /** The cache is a stretch of the log that ends at the last event seen. */
  ghost predicate Stretch(w: World) {
    exists f: nat, k: nat :: StretchAt(w, f, k)
  }

  /** While no catch-up is open, the cache is a stretch of the log. */
  ghost predicate Whole(w: World) {
    w.session.resumeAfter.None? ==> Stretch(w)
  }

  lemma AtUnique(log: seq<Envelope>, k: nat, l: nat)
    requires Increasing(log) && k <= |log| && l <= |log| && At(log, k) == At(log, l)
    ensures k == l
  {
  }

  lemma AppendWhole(w: World, e: Envelope)
    requires Whole(w) && Enabled(w, Append(e))
    ensures Whole(Next(w, Append(e)))
  {
    var v := Next(w, Append(e));
    if w.session.resumeAfter.None? {
      var f: nat, k: nat :| StretchAt(w, f, k);
      assert v.log[f..k] == w.log[f..k];
      assert StretchAt(v, f, k);
    }
  }

  /** The newest events that fit. */
  function Trimmed(events: seq<Envelope>): seq<Envelope> {
    if |events| > EVENT_CACHE_LIMIT then events[|events| - EVENT_CACHE_LIMIT..] else events
  }

  lemma LiveEvents(s: Session, e: Envelope)
    ensures ApplyLive(s, e).events == Trimmed(s.events + [e])
  {
  }

  lemma StretchSnoc(events: seq<Envelope>, log: seq<Envelope>, f: nat, k: nat, e: Envelope)
    requires f <= k < |log| && StoredAll(events) == log[f..k] && e.Stored() == log[k]
    ensures StoredAll(events + [e]) == log[f..k + 1]
  {
    forall i | 0 <= i < |events| ensures events[i].Stored() == log[f + i] {
      assert StoredAll(events)[i] == log[f..k][i];
    }
  }

  lemma StretchTrimmed(events: seq<Envelope>, log: seq<Envelope>, f: nat, k: nat) returns (g: nat)
    requires f <= k <= |log| && StoredAll(events) == log[f..k]
    ensures f <= g <= k && StoredAll(Trimmed(events)) == log[g..k]
  {
    g := if |events| > EVENT_CACHE_LIMIT then f + (|events| - EVENT_CACHE_LIMIT) else f;
    forall i | 0 <= i < |events| ensures events[i].Stored() == log[f + i] {
      assert StoredAll(events)[i] == log[f..k][i];
    }
  }

  /** A new event is cached at the end; when there is no room the oldest go. */
  lemma LiveStretch(s: Session, log: seq<Envelope>, f: nat, k: nat, e: Envelope) returns (g: nat)
    requires f <= k < |log| && StoredAll(s.events) == log[f..k] && e.Stored() == log[k]
    ensures g <= k + 1 && StoredAll(ApplyLive(s, e).events) == log[g..k + 1]
  {
    LiveEvents(s, e);
    StretchSnoc(s.events, log, f, k, e);
    g := StretchTrimmed(s.events + [e], log, f, k + 1);
  }

  lemma DeliverWhole(w: World, a: nat, k: nat, c: nat)
    requires Plain(w.log) && Enabled(w, Deliver) && Current(w, a, k, c) && Whole(w)
    ensures Stretch(Next(w, Deliver))
  {
    var e, v := w.pipe[0], Next(w, Deliver);
    var f: nat, l: nat :| StretchAt(w, f, l);
    AtUnique(w.log, k, l);
    StreamsTail(w.pipe, w.log, c);
    DuplicateIff(w.session, w.log, k, c, e);
    if IsDuplicate(w.session, e) {
      assert StretchAt(v, f, k);
    } else {
      assert e.Stored() == w.log[k];
      ApplyLiveFacts(w.session, w.log, k, k, e);
      var g := LiveStretch(w.session, w.log, f, k, e);
      assert StretchAt(v, g, k + 1);
    }
  }

  lemma {:induction false} MissedAll(events: seq<Envelope>, resume: Option<nat>, live: seq<Envelope>)
    requires forall i :: 0 <= i < |events| ==> After(events[i].seqNo, resume)
    ensures Missed(events, resume, live) == Missed(events, None, live)
  {
    if events != [] {
      MissedAll(events[..|events| - 1], resume, live);
    }
  }

  lemma MissedFrom(log: seq<Envelope>, x: nat, t: nat, live: seq<Envelope>)
    requires Increasing(log) && x <= t <= |log|
    ensures Missed(log[x..t], At(log, x), live) == Missed(log[x..t], None, live)
  {
    forall i | 0 <= i < t - x ensures After(log[x..t][i].seqNo, At(log, x)) {
      assert x > 0 ==> log[x - 1].seqNo < log[x + i].seqNo;
    }
    MissedAll(log[x..t], At(log, x), live);
  }

  lemma WiderBuffer(buffer: seq<Envelope>, log: seq<Envelope>, x: nat, m: nat, k: nat, joined: nat, c: nat)
    requires Buffers(buffer, log, m, k, joined, c) && x <= m
    ensures Buffers(buffer, log, x, k, joined, c)
  {
    forall i | 0 <= i < |buffer| ensures Copied(buffer[i], log[x..k]) {
      var j :| 0 <= j < k - m && log[m..k][j].seqNo == buffer[i].seqNo && log[m..k][j].event == buffer[i].event;
      CopiedAt(log, x, k, m + j, buffer[i]);
    }
  }

  /** What a catch-up adopts is the hydrated range and the live events after it. */
  lemma CompleteStretch(w: World, a: nat, m: nat, k: nat, joined: nat, c: nat)
    requires Plain(w.log) && Enabled(w, Complete) && Catching(w, a, m, k, joined, c)
    ensures Stretch(Next(w, Complete))
  {
    var x, t, buffer := w.hydration.value.from, w.hydration.value.to, w.session.replayBuffer;
    var end := if t < k then k else t;
    WiderBuffer(buffer, w.log, x, m, k, joined, c);
    AllMissedIs(w.log, buffer, x, t, x, k, joined, c, end);
    MissedFrom(w.log, x, t, buffer);
    FurthestAt(w.log, x, t, k, end);
    assert StretchAt(Next(w, Complete), x, end);
  }

  lemma StepWhole(w: World, step: Step, a: nat)
    requires Inv(w, a) && Enabled(w, step) && Whole(w)
    ensures Whole(Next(w, step))
  {
    match step
    case Append(e) => AppendWhole(w, e);
    case Deliver =>
      if k: nat, c: nat :| Current(w, a, k, c) {
        DeliverWhole(w, a, k, c);
      }
    case Complete =>
      if m: nat, k: nat, joined: nat, c: nat :| Catching(w, a, m, k, joined, c) {
        CompleteStretch(w, a, m, k, joined, c);
      }
    case Disconnect =>
      if w.session.resumeAfter.None? {
        var f: nat, k: nat :| StretchAt(w, f, k);
        assert StretchAt(Next(w, step), f, k);
      }
    case Hydrate(_) =>
    case Connect =>
  }

  /** In every run, while no catch-up is open, the cache is a stretch of the log that ends at the last event seen. */
  lemma {:induction false} CacheIsStretch(worlds: seq<World>, steps: seq<Step>, i: nat)
    requires IsRun(worlds, steps) && Start(worlds[0]) && Stretch(worlds[0]) && i < |worlds|
    ensures worlds[i].session.resumeAfter.None? ==> Stretch(worlds[i])
  {
    if i > 0 {
      CacheIsStretch(worlds, steps, i - 1);
      RunKeeps(worlds, steps, i - 1);
      StepWhole(worlds[i - 1], steps[i - 1], |worlds[0].log|);
    }
  }

  function Note(n: nat): Envelope {
    Envelope(n, Updated(OtherUpdate("")), None)
  }

  lemma SkipsOne(log: seq<Envelope>, f: nat, k: nat, s: seq<Envelope>)
    requires f <= k <= |log| && forall i :: 0 <= i < |log| ==> log[i].seqNo == i + 1
    requires |s| == 2 && s[1].seqNo != s[0].seqNo + 1
    ensures s != log[f..k]
  {
    if k - f == 2 {
      assert log[f..k][0] == log[f] && log[f..k][1] == log[f + 1];
    }
  }

  /** During a catch-up it need not be: an event appended while the daemon was lost is missing until it completes. */
  lemma GapMeanwhile() returns (worlds: seq<World>, steps: seq<Step>)
    ensures IsRun(worlds, steps) && Start(worlds[0]) && Stretch(worlds[0])
    ensures !Stretch(worlds[|steps|])
  {
    var session := EMPTY_SESSION.(meta := Some(Meta(Running, "", false)), attached := true, events := [Note(1)],
      lastSeq := Some(1));
    var first := World([Note(1)], [], false, session, [], None, {});
    steps := [Append(Note(2)), Connect, Append(Note(3)), Deliver];
    var second := Next(first, steps[0]);
    var third := Next(second, steps[1]);
    var fourth := Next(third, steps[2]);
    var fifth := Next(fourth, steps[3]);
    worlds := [first, second, third, fourth, fifth];
    assert StretchAt(first, 0, 1);
    assert fifth.session.events == [Note(1), Note(3)] && fifth.log == [Note(1), Note(2), Note(3)];
    forall f: nat, k: nat | f <= k <= 3 ensures StoredAll(fifth.session.events) != fifth.log[f..k] {
      SkipsOne(fifth.log, f, k, StoredAll(fifth.session.events));
    }
  }

  /* What a snapshot and a live event say of the session. */

  /** The `k`-th event is the last that reports the worker's state. */
  predicate LastReport(events: seq<Envelope>, k: nat) {
    && k < |events| && events[k].event.Lifecycle?
    && forall j :: k < j < |events| ==> !events[j].event.Lifecycle?
  }

  lemma {:induction false} LastDetailIs(events: seq<Envelope>)
    ensures LastDetail(events).Some? ==>
      exists k: nat :: LastReport(events, k) && LastDetail(events) == Some(events[k].event.detail)
    ensures LastDetail(events).None? ==> forall j :: 0 <= j < |events| ==> !events[j].event.Lifecycle?
  {
    if events != [] {
      var init, last := events[..|events| - 1], |events| - 1;
      if events[last].event.Lifecycle? {
        assert LastReport(events, last);
      } else {
        LastDetailIs(init);
        if k: nat :| LastReport(init, k) && LastDetail(init) == Some(init[k].event.detail) {
          assert LastReport(events, k) && events[k] == init[k];
        }
      }
    }
  }

  /** A new report of the worker's state becomes the session's; no other live event changes what is known of it. */
  lemma LiveStatus(s: Session, e: Envelope)
    ensures
      var t := HandleLive(s, e);
      if e.event.Lifecycle? && !IsDuplicate(s, e) then
        && t.lastDetail == e.event.detail && (t.meta.Some? <==> s.meta.Some?)
        && (t.meta.Some? ==>
              t.meta.value.status == e.event.status && t.meta.value.title == s.meta.value.title
              && t.meta.value.closing == s.meta.value.closing)
      else t.meta == s.meta && t.lastDetail == s.lastDetail
  {
  }
}
