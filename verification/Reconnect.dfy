/** A client of the bridge receives the transcript once and in order, however often the daemon is lost. */
module Reconnect {
  import opened Results
  import opened Transcript
  import opened Permissions
  import opened Cache
  import Paging

  /**
   * One session: the daemon's log, the live stream of the current connection, the bridge's cache, what the client
   * received, and the hydration on its way, as the range of the log it was taken from. `dropped` records the
   * permission requests a catch-up left out.
   */
  datatype World = World(
    log: seq<Envelope>,
    pipe: seq<Envelope>,
    connected: bool,
    session: Session,
    received: seq<Envelope>,
    hydration: Option<Range>,
    dropped: set<nat>)

  datatype Range = Range(from: nat, to: nat)

  datatype Step =
    | Append(e: Envelope)
    | Deliver
    | Disconnect
    | Connect
    | Hydrate(from: nat)
    | Complete

  /** The position just after the first `k` events. */
  function At(log: seq<Envelope>, k: nat): Option<nat>
    requires k <= |log|
  {
    if k == 0 then None else Some(log[k - 1].seqNo)
  }

  /** `log[from..]` holds every event after `resume`. */
  predicate HoldsMissed(log: seq<Envelope>, from: nat, resume: Option<nat>) {
    from <= |log| && forall i :: 0 <= i < from ==> !After(log[i].seqNo, resume)
  }

  /**
   * When a step can happen. The daemon numbers events upwards; a hydration is asked for after connecting, and holds
   * what was missed.
   */
  predicate Enabled(w: World, step: Step) {
    match step
    case Append(e) => forall i :: 0 <= i < |w.log| ==> w.log[i].seqNo < e.seqNo
    case Deliver => w.connected && w.pipe != []
    case Disconnect => w.connected
    case Connect => !w.connected
    case Hydrate(from) =>
      w.connected && w.session.resumeAfter.Some? && HoldsMissed(w.log, from, w.session.resumeAfter.value)
    case Complete => w.connected && w.hydration.Some? && w.hydration.value.from <= w.hydration.value.to <= |w.log|
  }

  function Fetched(w: World): Snapshot
    requires Enabled(w, Complete)
  {
    Snapshot(w.log[w.hydration.value.from..w.hydration.value.to], w.hydration.value.from == 0)
  }

  /** The requests among the missed events that a catch-up leaves out. */
  function Answered(events: seq<Envelope>): set<nat> {
    set i | 0 <= i < |events| && events[i].event.PermissionRequest? && !HasSeq(Unended(events), events[i].seqNo) ::
      events[i].seqNo
  }

  /** What was missed or buffered, in order. */
  function AllMissed(fetched: seq<Envelope>, resume: Option<nat>, buffer: seq<Envelope>): seq<Envelope> {
    SortBySeq(Missed(fetched, resume, buffer) + buffer)
  }

  function MissedEvents(s: Session, fetched: Snapshot): seq<Envelope>
    requires s.resumeAfter.Some?
  {
    AllMissed(fetched.events, s.resumeAfter.value, s.replayBuffer)
  }

  function Next(w: World, step: Step): World
    requires Enabled(w, step)
  {
    match step
    case Append(e) => w.(log := w.log + [e.Stored()], pipe := if w.connected then w.pipe + [e] else w.pipe)
    case Deliver =>
      var e := w.pipe[0];
      w.(pipe := w.pipe[1..], session := HandleLive(w.session, e), received := w.received + LiveForward(w.session, e))
    case Disconnect => w.(connected := false, pipe := [], hydration := None)
    case Connect => w.(connected := true, pipe := [], session := BeginCatchUp(w.session))
    case Hydrate(from) => w.(hydration := Some(Range(from, |w.log|)))
    case Complete =>
      var r := CompleteCatchUp(w.session, Some(Fetched(w)));
      if r.None? then w.(hydration := None)
      else
        w.(hydration := None, session := r.value.session, received := w.received + r.value.events,
           dropped := w.dropped + Answered(MissedEvents(w.session, Fetched(w))))
  }

  /**
   * What `Paging.FetchMissed` returns when neither its page limit nor the daemon stopped it is a hydration of this
   * protocol: the step can happen, and its snapshot is what was fetched.
   */
  lemma FetchedHydrates(w: World, resume: nat, events: seq<Envelope>, from: nat)
    requires w.connected && w.session.resumeAfter == Some(Some(resume))
    requires from <= |w.log| && events == w.log[from..] && Paging.Covers(w.log, from, resume)
    ensures Enabled(w, Hydrate(from)) && Enabled(Next(w, Hydrate(from)), Complete)
    ensures Fetched(Next(w, Hydrate(from))) == Snapshot(events, from == 0)
  {
    assert w.log[from..|w.log|] == events;
  }

  /* The claim. */

  /** The events of `s` that were not left out. */
  function Visible(s: seq<Envelope>, dropped: set<nat>): seq<Envelope> {
    if s == [] then []
    else
      var init, last := Visible(s[..|s| - 1], dropped), s[|s| - 1];
      if last.seqNo in dropped then init else init + [last]
  }

  /** A left out request had ended by the time the client received event `k`. */
  ghost predicate WasEnded(log: seq<Envelope>, a: nat, k: nat, n: nat)
    requires a <= k <= |log|
  {
    exists i: nat, j: nat :: EndedBy(log, a, k, n, i, j)
  }

  predicate EndedBy(log: seq<Envelope>, a: nat, k: nat, n: nat, i: nat, j: nat)
    requires a <= k <= |log|
  {
    a <= i < j < k && log[i].seqNo == n && log[i].event.PermissionRequest? && Ends(log[j].event, log[i].event)
  }

  /** The client has `log[a..k]`, but for requests that had already ended. */
  ghost predicate Received(w: World, a: nat, k: nat) {
    && a <= k <= |w.log|
    && StoredAll(w.received) == Visible(w.log[a..k], w.dropped)
    && forall n :: n in w.dropped ==> WasEnded(w.log, a, k, n)
  }

  /* What every run keeps. */

  /** `pipe` streams `log[c..]`. */
  ghost predicate Streams(pipe: seq<Envelope>, log: seq<Envelope>, c: nat) {
    && c <= |log| && |pipe| == |log| - c
    && forall i :: 0 <= i < |pipe| ==> pipe[i].Stored() == log[c + i]
  }

  ghost predicate Plain(log: seq<Envelope>) {
    Increasing(log) && forall i :: 0 <= i < |log| ==> log[i].Stored() == log[i]
  }

  /** The log from `from` to `to` is in the list `events`. */
  ghost predicate Holds(events: seq<Envelope>, log: seq<Envelope>, from: nat, to: nat) {
    forall i :: from <= i < to && i < |log| ==> HasSeq(events, log[i].seqNo)
  }

  /** The client is up to date with the live stream: it has `k` events, and what is left of the rest is streamed. */
  ghost predicate Current(w: World, a: nat, k: nat, c: nat) {
    && Received(w, a, k)
    && w.session.resumeAfter.None? && !w.session.replaying && w.session.replayBuffer == []
    && w.session.lastSeq == At(w.log, k)
    && w.hydration.None?
    && (w.connected ==> Streams(w.pipe, w.log, c) && c <= k && Holds(w.session.events, w.log, c, k))
  }

  /** The buffer holds events of `log[m..k]`, among them all from `joined` to `c`. */
  ghost predicate Buffers(buffer: seq<Envelope>, log: seq<Envelope>, m: nat, k: nat, joined: nat, c: nat) {
    && m <= k <= |log|
    && Increasing(buffer) && CopiesOf(buffer, log[m..k])
    && Holds(buffer, log, joined, c)
  }

  /** The client has `m` events and catches up; the bridge has seen live events up to `k`. */
  ghost predicate Catching(w: World, a: nat, m: nat, k: nat, joined: nat, c: nat) {
    && Received(w, a, m)
    && m <= k <= |w.log|
    && w.session.resumeAfter == Some(At(w.log, m)) && w.session.replaying
    && w.session.lastSeq == At(w.log, k)
    && (w.connected ==> m <= joined <= c && Streams(w.pipe, w.log, c) && k <= c)
    && Buffers(w.session.replayBuffer, w.log, m, k, joined, if w.connected then c else joined)
    && (w.hydration.Some? ==>
          && w.connected
          && w.hydration.value.from <= m && joined <= w.hydration.value.to <= |w.log|)
  }

  ghost predicate Inv(w: World, a: nat) {
    && Plain(w.log)
    && w.session.attached && w.session.meta.Some?
    && (|| (exists k: nat, c: nat :: Current(w, a, k, c))
        || (exists m: nat, k: nat, joined: nat, c: nat :: Catching(w, a, m, k, joined, c)))
  }

  /** A client attached at the end of `log`. */
  ghost predicate Start(w: World) {
    && Plain(w.log)
    && w.session.attached && w.session.meta.Some?
    && w.session.resumeAfter.None? && !w.session.replaying && w.session.replayBuffer == []
    && w.session.lastSeq == At(w.log, |w.log|)
    && w.pipe == [] && w.received == [] && w.hydration.None? && w.dropped == {}
  }

  /* Appending. */

  lemma PlainAppend(log: seq<Envelope>, e: Envelope)
    requires Plain(log) && forall i :: 0 <= i < |log| ==> log[i].seqNo < e.seqNo
    ensures Plain(log + [e.Stored()])
  {
  }

  lemma ReceivedGrows(w: World, v: World, a: nat, k: nat, e: Envelope)
    requires Received(w, a, k) && v.log == w.log + [e] && v.received == w.received && v.dropped == w.dropped
    ensures Received(v, a, k)
  {
    assert v.log[a..k] == w.log[a..k];
    forall n | n in w.dropped ensures WasEnded(v.log, a, k, n) {
      assert WasEnded(w.log, a, k, n);
      var i: nat, j: nat :| EndedBy(w.log, a, k, n, i, j);
      assert EndedBy(v.log, a, k, n, i, j);
    }
  }

  lemma StreamsGrows(pipe: seq<Envelope>, log: seq<Envelope>, c: nat, e: Envelope)
    requires Streams(pipe, log, c)
    ensures Streams(pipe + [e], log + [e.Stored()], c)
  {
  }

  lemma BuffersGrows(buffer: seq<Envelope>, log: seq<Envelope>, m: nat, k: nat, joined: nat, c: nat, e: Envelope)
    requires Buffers(buffer, log, m, k, joined, c) && (c <= |log| || c <= joined)
    ensures Buffers(buffer, log + [e], m, k, joined, c)
  {
    assert (log + [e])[m..k] == log[m..k];
  }

  lemma AppendCurrent(w: World, e: Envelope, a: nat, k: nat, c: nat)
    requires Plain(w.log) && Enabled(w, Append(e)) && Current(w, a, k, c)
    ensures Current(Next(w, Append(e)), a, k, c)
  {
    var v := Next(w, Append(e));
    ReceivedGrows(w, v, a, k, e.Stored());
    if w.connected {
      StreamsGrows(w.pipe, w.log, c, e);
    }
  }

  lemma AppendCatching(w: World, e: Envelope, a: nat, m: nat, k: nat, joined: nat, c: nat)
    requires Plain(w.log) && Enabled(w, Append(e)) && Catching(w, a, m, k, joined, c)
    ensures Catching(Next(w, Append(e)), a, m, k, joined, c)
  {
    var v := Next(w, Append(e));
    ReceivedGrows(w, v, a, m, e.Stored());
    if w.connected {
      StreamsGrows(w.pipe, w.log, c, e);
      BuffersGrows(w.session.replayBuffer, w.log, m, k, joined, c, e.Stored());
    } else {
      BuffersGrows(w.session.replayBuffer, w.log, m, k, joined, joined, e.Stored());
    }
  }

  /* Delivering. */

  lemma HasSeqHere(events: seq<Envelope>, i: nat)
    requires i < |events|
    ensures HasSeq(events, events[i].seqNo)
  {
  }

  lemma InHasSeq(events: seq<Envelope>, e: Envelope)
    requires e in events
    ensures HasSeq(events, e.seqNo)
  {
    var i :| 0 <= i < |events| && events[i] == e;
  }

  lemma StreamsTail(pipe: seq<Envelope>, log: seq<Envelope>, c: nat)
    requires Streams(pipe, log, c) && pipe != []
    ensures c < |log| && Streams(pipe[1..], log, c + 1) && pipe[0].seqNo == log[c].seqNo
      && pipe[0].event == log[c].event
  {
    assert pipe[0].Stored() == log[c + 0];
  }

  /** An event past the cache's position is new; one before it that the cache holds is a duplicate. */
  lemma DuplicateIff(s: Session, log: seq<Envelope>, k: nat, c: nat, e: Envelope)
    requires Increasing(log) && k <= |log| && c < |log| && s.lastSeq == At(log, k) && e.seqNo == log[c].seqNo
    requires Holds(s.events, log, c, k)
    ensures IsDuplicate(s, e) <==> c < k
  {
    if c < k {
      assert log[c].seqNo <= log[k - 1].seqNo;
    } else if k > 0 {
      assert log[k - 1].seqNo < log[c].seqNo;
    }
  }

  lemma ApplyLiveFacts(s: Session, log: seq<Envelope>, k: nat, c: nat, e: Envelope)
    requires Increasing(log) && k <= c < |log| && s.lastSeq == At(log, k) && e.seqNo == log[c].seqNo
    ensures ApplyLive(s, e).lastSeq == At(log, c + 1)
    ensures ApplyLive(s, e).meta.Some? == s.meta.Some? && ApplyLive(s, e).attached == s.attached
    ensures ApplyLive(s, e).replaying == s.replaying && ApplyLive(s, e).resumeAfter == s.resumeAfter
    ensures ApplyLive(s, e).replayBuffer == if s.replaying then s.replayBuffer + [e] else s.replayBuffer
  {
  }

  lemma VisibleNext(log: seq<Envelope>, a: nat, k: nat, dropped: set<nat>)
    requires a <= k < |log|
    ensures Visible(log[a..k + 1], dropped) ==
      Visible(log[a..k], dropped) + (if log[k].seqNo in dropped then [] else [log[k]])
  {
    assert log[a..k + 1][..k - a] == log[a..k];
  }

  lemma EndedMore(log: seq<Envelope>, a: nat, k: nat, l: nat, n: nat)
    requires a <= k <= l <= |log| && WasEnded(log, a, k, n)
    ensures WasEnded(log, a, l, n)
  {
    var i: nat, j: nat :| EndedBy(log, a, k, n, i, j);
    assert EndedBy(log, a, l, n, i, j);
  }

  lemma DroppedBefore(log: seq<Envelope>, a: nat, k: nat, at: nat, n: nat)
    requires Increasing(log) && a <= k <= at < |log| && WasEnded(log, a, k, n)
    ensures n != log[at].seqNo
  {
    var i: nat, j: nat :| EndedBy(log, a, k, n, i, j);
  }

  lemma ReceivedNext(w: World, v: World, a: nat, k: nat, e: Envelope)
    requires Plain(w.log) && Received(w, a, k) && k < |w.log| && e.Stored() == w.log[k]
    requires v.log == w.log && v.received == w.received + [e] && v.dropped == w.dropped
    ensures Received(v, a, k + 1)
  {
    VisibleNext(w.log, a, k, w.dropped);
    if w.log[k].seqNo in w.dropped {
      DroppedBefore(w.log, a, k, k, w.log[k].seqNo);
      assert false;
    }
    assert StoredAll(v.received) == StoredAll(w.received) + [w.log[k]];
    forall n | n in v.dropped ensures WasEnded(v.log, a, k + 1, n) {
      EndedMore(w.log, a, k, k + 1, n);
    }
  }

  lemma DeliverCurrent(w: World, a: nat, k: nat, c: nat) returns (l: nat)
    requires Plain(w.log) && Enabled(w, Deliver) && Current(w, a, k, c) && w.session.attached
    ensures Current(Next(w, Deliver), a, l, c + 1)
    ensures Next(w, Deliver).session.meta.Some? == w.session.meta.Some? && Next(w, Deliver).session.attached
  {
    var v := Next(w, Deliver);
    var e := w.pipe[0];
    StreamsTail(w.pipe, w.log, c);
    DuplicateIff(w.session, w.log, k, c, e);
    if c < k {
      assert w.received + [] == w.received;
      assert Received(v, a, k);
      l := k;
    } else {
      ApplyLiveFacts(w.session, w.log, k, c, e);
      ReceivedNext(w, v, a, k, e);
      l := k + 1;
    }
  }

  lemma BufferNext(buffer: seq<Envelope>, log: seq<Envelope>, m: nat, k: nat, joined: nat, c: nat, e: Envelope)
    requires Increasing(log) && Buffers(buffer, log, m, k, joined, c)
    requires k <= c < |log| && e.seqNo == log[c].seqNo && e.event == log[c].event
    ensures Buffers(buffer + [e], log, m, c + 1, joined, c + 1)
  {
    var after := buffer + [e];
    forall i | 0 <= i < |after| ensures Copied(after[i], log[m..c + 1]) && (i < |buffer| ==> after[i].seqNo < e.seqNo) {
      if i < |buffer| {
        assert Copied(buffer[i], log[m..k]);
        var j :| 0 <= j < k - m && log[m..k][j].seqNo == buffer[i].seqNo && log[m..k][j].event == buffer[i].event;
        assert log[m..c + 1][j] == log[m..k][j] == log[m + j];
      } else {
        assert log[m..c + 1][c - m] == log[c];
      }
    }
    forall i | joined <= i < c + 1 && i < |log| ensures HasSeq(after, log[i].seqNo) {
      if i < c {
        assert HasSeq(buffer, log[i].seqNo);
        var j :| 0 <= j < |buffer| && buffer[j].seqNo == log[i].seqNo;
        assert after[j].seqNo == log[i].seqNo;
      } else {
        assert after[|buffer|].seqNo == log[i].seqNo;
      }
    }
  }

  lemma DeliverCatching(w: World, a: nat, m: nat, k: nat, joined: nat, c: nat)
    requires Plain(w.log) && Enabled(w, Deliver) && Catching(w, a, m, k, joined, c)
    ensures Catching(Next(w, Deliver), a, m, c + 1, joined, c + 1)
    ensures Next(w, Deliver).session.meta.Some? == w.session.meta.Some?
    ensures Next(w, Deliver).session.attached == w.session.attached
  {
    var v := Next(w, Deliver);
    var e := w.pipe[0];
    StreamsTail(w.pipe, w.log, c);
    DuplicateIff(w.session, w.log, k, c, e);
    ApplyLiveFacts(w.session, w.log, k, c, e);
    assert w.received + [] == w.received;
    BufferNext(w.session.replayBuffer, w.log, m, k, joined, c, e);
  }

  /* Losing and regaining the daemon. */

  lemma ConnectKeeps(w: World, a: nat)
    requires Inv(w, a) && Enabled(w, Connect)
    ensures Inv(Next(w, Connect), a)
  {
    var v := Next(w, Connect);
    var n := |w.log|;
    if k: nat, c: nat :| Current(w, a, k, c) {
      assert Catching(v, a, k, k, n, n);
    } else {
      var m: nat, k: nat, joined: nat, c: nat :| Catching(w, a, m, k, joined, c);
      assert Catching(v, a, m, k, n, n);
    }
  }

  lemma DisconnectKeeps(w: World, a: nat)
    requires Inv(w, a) && Enabled(w, Disconnect)
    ensures Inv(Next(w, Disconnect), a)
  {
    var v := Next(w, Disconnect);
    if k: nat, c: nat :| Current(w, a, k, c) {
      assert Current(v, a, k, c);
    } else {
      var m: nat, k: nat, joined: nat, c: nat :| Catching(w, a, m, k, joined, c);
      assert Catching(v, a, m, k, joined, c);
    }
  }

  lemma AfterAt(log: seq<Envelope>, m: nat)
    requires Increasing(log) && m <= |log|
    ensures forall i :: 0 <= i < |log| ==> (After(log[i].seqNo, At(log, m)) <==> m <= i)
  {
  }

  lemma HoldsFrom(log: seq<Envelope>, m: nat, from: nat)
    requires Increasing(log) && m <= |log| && HoldsMissed(log, from, At(log, m))
    ensures from <= m
  {
    AfterAt(log, m);
    assert m < |log| ==> After(log[m].seqNo, At(log, m));
  }

  lemma HydrateKeeps(w: World, a: nat, from: nat)
    requires Inv(w, a) && Enabled(w, Hydrate(from))
    ensures Inv(Next(w, Hydrate(from)), a)
  {
    var v := Next(w, Hydrate(from));
    assert forall k: nat, c: nat :: !Current(w, a, k, c);
    var m: nat, k: nat, joined: nat, c: nat :| Catching(w, a, m, k, joined, c);
    HoldsFrom(w.log, m, from);
    assert Catching(v, a, m, k, joined, c);
  }

  /* Completing a catch-up. */

  predicate Wanted(e: Envelope, resume: Option<nat>, live: seq<Envelope>) {
    After(e.seqNo, resume) && !HasSeq(live, e.seqNo)
  }

  /** `r` picks, in order, exactly the wanted ones of `events`. */
  ghost predicate Picks(r: seq<Envelope>, events: seq<Envelope>, resume: Option<nat>, live: seq<Envelope>) {
    && Increasing(r)
    && (forall e :: e in r <==> e in events && Wanted(e, resume, live))
  }

  lemma PicksNext(r: seq<Envelope>, init: seq<Envelope>, last: Envelope, resume: Option<nat>, live: seq<Envelope>)
    requires Picks(r, init, resume, live) && Increasing(init + [last])
    ensures Picks(r + (if Wanted(last, resume, live) then [last] else []), init + [last], resume, live)
  {
    forall i | 0 <= i < |r| ensures r[i].seqNo < last.seqNo {
      assert r[i] in r;
      var j :| 0 <= j < |init| && init[j] == r[i];
      assert (init + [last])[j].seqNo < (init + [last])[|init|].seqNo;
    }
  }

  lemma {:induction false} MissedPicks(events: seq<Envelope>, resume: Option<nat>, live: seq<Envelope>)
    requires Increasing(events)
    ensures Picks(Missed(events, resume, live), events, resume, live)
  {
    if events != [] {
      var init, last := events[..|events| - 1], events[|events| - 1];
      MissedPicks(init, resume, live);
      PicksNext(Missed(init, resume, live), init, last, resume, live);
      assert init + [last] == events;
    }
  }

  lemma AllMissedHas(fetched: seq<Envelope>, resume: Option<nat>, buffer: seq<Envelope>)
    requires Increasing(fetched) && Increasing(buffer)
    ensures
      var r := AllMissed(fetched, resume, buffer);
      Increasing(r) && forall e :: e in r <==> e in Missed(fetched, resume, buffer) || e in buffer
  {
    var missed := Missed(fetched, resume, buffer);
    MissedPicks(fetched, resume, buffer);
    var both := missed + buffer;
    forall i, j | 0 <= i < j < |both| ensures both[i].seqNo != both[j].seqNo {
      if i < |missed| && |missed| <= j {
        assert both[j] == buffer[j - |missed|];
        HasSeqHere(buffer, j - |missed|);
        assert missed[i] in missed;
      }
    }
    SortIncreases(both);
    forall e ensures e in AllMissed(fetched, resume, buffer) <==> e in both {
      assert e in multiset(AllMissed(fetched, resume, buffer)) <==> e in multiset(both);
    }
  }

  /** A buffered event with the number of a log event is that event. */
  lemma BufferedCopy(buffer: seq<Envelope>, log: seq<Envelope>, m: nat, k: nat, i: nat) returns (e: Envelope)
    requires Increasing(log) && m <= k <= |log| && CopiesOf(buffer, log[m..k]) && i < |log|
    requires HasSeq(buffer, log[i].seqNo)
    ensures e in buffer && e.seqNo == log[i].seqNo && e.event == log[i].event
  {
    var b :| 0 <= b < |buffer| && buffer[b].seqNo == log[i].seqNo;
    e := buffer[b];
    assert Copied(buffer[b], log[m..k]);
    var j :| 0 <= j < k - m && log[m..k][j].seqNo == e.seqNo && log[m..k][j].event == e.event;
    SameIndex(log, m + j, i);
  }

  lemma SameIndex(log: seq<Envelope>, i: nat, j: nat)
    requires Increasing(log) && i < |log| && j < |log| && log[i].seqNo == log[j].seqNo
    ensures i == j
  {
  }

  lemma CopiedHere(s: seq<Envelope>, e: Envelope, x: Envelope)
    requires e in s && e.seqNo == x.seqNo && e.event == x.event
    ensures Copied(x, s)
  {
    var i :| 0 <= i < |s| && s[i] == e;
  }

  lemma CopiedAt(log: seq<Envelope>, m: nat, end: nat, i: nat, x: Envelope)
    requires m <= i < end <= |log| && log[i].seqNo == x.seqNo && log[i].event == x.event
    ensures Copied(x, log[m..end])
  {
    assert log[m..end][i - m] == log[i];
  }

  lemma CopiedWider(log: seq<Envelope>, m: nat, k: nat, end: nat, x: Envelope)
    requires m <= k <= end <= |log| && Copied(x, log[m..k])
    ensures Copied(x, log[m..end])
  {
    var j :| 0 <= j < k - m && log[m..k][j].seqNo == x.seqNo && log[m..k][j].event == x.event;
    CopiedAt(log, m, end, m + j, x);
  }

  lemma FetchedAt(log: seq<Envelope>, x: nat, t: nat, e: Envelope) returns (i: nat)
    requires x <= t <= |log| && e in log[x..t]
    ensures x <= i < t && log[i] == e
  {
    var f :| 0 <= f < t - x && log[x..t][f] == e;
    i := x + f;
  }

  /** Everything missed or buffered is in the log from `m` to `end`. */
  lemma MissedInLog(log: seq<Envelope>, buffer: seq<Envelope>, missed: seq<Envelope>, x: nat, t: nat, m: nat, k: nat,
                    end: nat, e: Envelope)
    requires Increasing(log) && m <= k <= end <= |log| && x <= t <= end && m <= |log|
    requires CopiesOf(buffer, log[m..k])
    requires Picks(missed, log[x..t], At(log, m), buffer)
    requires e in missed || e in buffer
    ensures Copied(e, log[m..end])
  {
    if e in buffer {
      var b :| 0 <= b < |buffer| && buffer[b] == e;
      CopiedWider(log, m, k, end, buffer[b]);
    } else {
      var f := FetchedAt(log, x, t, e);
      AfterAt(log, m);
      CopiedAt(log, m, end, f, e);
    }
  }

  /** The log from `m` to `end` is missed or buffered. */
  lemma LogInMissed(log: seq<Envelope>, buffer: seq<Envelope>, x: nat, t: nat, m: nat, k: nat, joined: nat, c: nat,
                    i: nat, r: seq<Envelope>)
    requires Increasing(log) && Buffers(buffer, log, m, k, joined, c) && k <= c <= |log|
    requires x <= m <= joined <= t <= |log| && m <= i < |log| && (i < t || i < k)
    requires forall e :: e in Missed(log[x..t], At(log, m), buffer) || e in buffer ==> e in r
    ensures Copied(log[i], r)
  {
    if HasSeq(buffer, log[i].seqNo) {
      var e := BufferedCopy(buffer, log, m, k, i);
      CopiedHere(r, e, log[i]);
    } else {
      assert i < t;
      var fetched := log[x..t];
      MissedPicks(fetched, At(log, m), buffer);
      AfterAt(log, m);
      assert fetched[i - x] == log[i];
      assert Wanted(log[i], At(log, m), buffer);
      CopiedHere(r, log[i], log[i]);
    }
  }

  lemma AllInLog(log: seq<Envelope>, buffer: seq<Envelope>, r: seq<Envelope>, x: nat, t: nat, m: nat, k: nat, end: nat)
    requires Increasing(log) && m <= k <= end <= |log| && x <= t <= end && CopiesOf(buffer, log[m..k])
    requires forall e :: e in r <==> e in Missed(log[x..t], At(log, m), buffer) || e in buffer
    ensures CopiesOf(r, log[m..end])
  {
    var missed := Missed(log[x..t], At(log, m), buffer);
    MissedPicks(log[x..t], At(log, m), buffer);
    forall i | 0 <= i < |r| ensures Copied(r[i], log[m..end]) {
      assert r[i] in r;
      MissedInLog(log, buffer, missed, x, t, m, k, end, r[i]);
    }
  }

  lemma LogInAll(log: seq<Envelope>, buffer: seq<Envelope>, r: seq<Envelope>, x: nat, t: nat, m: nat, k: nat,
                 joined: nat, c: nat, end: nat)
    requires Increasing(log) && Buffers(buffer, log, m, k, joined, c) && k <= c <= |log|
    requires x <= m <= joined <= t <= |log| && end == if t < k then k else t
    requires forall e :: e in Missed(log[x..t], At(log, m), buffer) || e in buffer ==> e in r
    ensures CopiesOf(log[m..end], r)
  {
    forall i | 0 <= i < end - m ensures Copied(log[m..end][i], r) {
      LogInMissed(log, buffer, x, t, m, k, joined, c, m + i, r);
    }
  }

  lemma SlicePlain(log: seq<Envelope>, m: nat, end: nat)
    requires Plain(log) && m <= end <= |log|
    ensures Increasing(log[m..end]) && StoredAll(log[m..end]) == log[m..end]
  {
  }

  /** The hydrated range and the buffer together are everything from `m` to `end`. */
  lemma AllMissedIs(log: seq<Envelope>, buffer: seq<Envelope>, x: nat, t: nat, m: nat, k: nat, joined: nat, c: nat,
                    end: nat)
    requires Plain(log) && Buffers(buffer, log, m, k, joined, c) && k <= c <= |log|
    requires x <= m <= joined <= t <= |log| && end == if t < k then k else t
    ensures
      var r := AllMissed(log[x..t], At(log, m), buffer);
      Increasing(r) && StoredAll(r) == log[m..end]
  {
    var r := AllMissed(log[x..t], At(log, m), buffer);
    assert Increasing(log[x..t]);
    AllMissedHas(log[x..t], At(log, m), buffer);
    AllInLog(log, buffer, r, x, t, m, k, end);
    LogInAll(log, buffer, r, x, t, m, k, joined, c, end);
    SlicePlain(log, m, end);
    IncreasingUnique(r, log[m..end]);
  }

  lemma {:induction false} VisibleJoin(s: seq<Envelope>, t: seq<Envelope>, dropped: set<nat>)
    ensures Visible(s + t, dropped) == Visible(s, dropped) + Visible(t, dropped)
  {
    if t == [] {
      assert s + t == s;
    } else {
      assert (s + t)[..|s + t| - 1] == s + t[..|t| - 1];
      VisibleJoin(s, t[..|t| - 1], dropped);
    }
  }

  /** Leaving out numbers that do not occur changes nothing. */
  lemma {:induction false} VisibleSame(s: seq<Envelope>, dropped: set<nat>, more: set<nat>)
    requires forall i :: 0 <= i < |s| ==> (s[i].seqNo in dropped <==> s[i].seqNo in more)
    ensures Visible(s, dropped) == Visible(s, more)
  {
    if s != [] {
      VisibleSame(s[..|s| - 1], dropped, more);
    }
  }

  /** Which requests are still asked is what is visible without the answered ones. */
  lemma {:induction false} StillAskedVisible(events: seq<Envelope>, open: seq<Envelope>, dropped: set<nat>)
    requires forall i :: 0 <= i < |events| ==>
      (events[i].seqNo in dropped <==> events[i].event.PermissionRequest? && !HasSeq(open, events[i].seqNo))
    ensures StoredAll(StillAsked(events, open)) == Visible(StoredAll(events), dropped)
  {
    if events != [] {
      var init := events[..|events| - 1];
      StillAskedVisible(init, open, dropped);
      assert StoredAll(events)[..|events| - 1] == StoredAll(init);
      StoredJoin(StillAsked(init, open), if events[|events| - 1].seqNo in dropped then [] else [events[|events| - 1]]);
    }
  }

  lemma StoredJoin(s: seq<Envelope>, t: seq<Envelope>)
    ensures StoredAll(s + t) == StoredAll(s) + StoredAll(t)
  {
  }

  lemma AnsweredIff(events: seq<Envelope>, i: nat)
    requires Increasing(events) && i < |events|
    ensures events[i].seqNo in Answered(events) <==>
      events[i].event.PermissionRequest? && !HasSeq(Unended(events), events[i].seqNo)
  {
    if events[i].seqNo in Answered(events) {
      var j :| 0 <= j < |events| && events[j].event.PermissionRequest? && !HasSeq(Unended(events), events[j].seqNo)
        && events[j].seqNo == events[i].seqNo;
      SameIndex(events, i, j);
    }
  }

  /** An answered request is ended by a later event of the missed part. */
  lemma AnsweredEnded(events: seq<Envelope>, n: nat) returns (i: nat, j: nat)
    requires n in Answered(events)
    ensures i < j < |events| && events[i].seqNo == n && events[i].event.PermissionRequest?
    ensures Ends(events[j].event, events[i].event)
  {
    i :| 0 <= i < |events| && events[i].event.PermissionRequest? && !HasSeq(Unended(events), events[i].seqNo)
      && events[i].seqNo == n;
    UnendedIff(events, events[i]);
    if events[i] in Unended(events) {
      InHasSeq(Unended(events), events[i]);
      assert false;
    }
    var l :| 0 <= l < |events[i + 1..]| && Ends(events[i + 1..][l].event, events[i].event);
    j := i + 1 + l;
  }

  lemma AnsweredInLog(log: seq<Envelope>, events: seq<Envelope>, a: nat, m: nat, end: nat, n: nat)
    requires a <= m <= end <= |log| && StoredAll(events) == log[m..end] && n in Answered(events)
    ensures WasEnded(log, a, end, n)
    ensures exists i :: m <= i < end && log[i].seqNo == n
  {
    var i, j := AnsweredEnded(events, n);
    assert log[m..end][i] == events[i].Stored() && log[m..end][j] == events[j].Stored();
    assert log[m + i] == events[i].Stored() && log[m + j] == events[j].Stored();
    assert EndedBy(log, a, end, n, m + i, m + j);
  }

  /** The client, which had `m` events, now has `end`. */
  lemma CompleteReceived(w: World, v: World, events: seq<Envelope>, a: nat, m: nat, end: nat)
    requires Plain(w.log) && Received(w, a, m) && m <= end <= |w.log|
    requires Increasing(events) && StoredAll(events) == w.log[m..end]
    requires v.log == w.log && v.received == w.received + StillAsked(events, Unended(events))
    requires v.dropped == w.dropped + Answered(events)
    ensures Received(v, a, end)
  {
    assert forall n :: n in v.dropped ==> WasEnded(w.log, a, end, n) by {
      DroppedEnded(w, events, a, m, end);
    }
    assert Visible(w.log[a..m], w.dropped) == Visible(w.log[a..m], v.dropped) by {
      DroppedElsewhere(w, events, a, m, end);
      VisibleSame(w.log[a..m], w.dropped, v.dropped);
    }
    assert StoredAll(StillAsked(events, Unended(events))) == Visible(w.log[m..end], v.dropped) by {
      DroppedHere(w, events, a, m, end);
      StillAskedVisible(events, Unended(events), v.dropped);
    }
    ReceivedJoin(w.log, w.received, StillAsked(events, Unended(events)), a, m, end, v.dropped);
  }

  lemma ReceivedJoin(log: seq<Envelope>, received: seq<Envelope>, more: seq<Envelope>, a: nat, m: nat, end: nat,
                     dropped: set<nat>)
    requires a <= m <= end <= |log|
    requires StoredAll(received) == Visible(log[a..m], dropped) && StoredAll(more) == Visible(log[m..end], dropped)
    ensures StoredAll(received + more) == Visible(log[a..end], dropped)
  {
    StoredJoin(received, more);
    VisibleJoin(log[a..m], log[m..end], dropped);
    assert log[a..m] + log[m..end] == log[a..end];
  }

  lemma DroppedEnded(w: World, events: seq<Envelope>, a: nat, m: nat, end: nat)
    requires Received(w, a, m) && m <= end <= |w.log| && StoredAll(events) == w.log[m..end]
    ensures forall n :: n in w.dropped + Answered(events) ==> WasEnded(w.log, a, end, n)
  {
    forall n | n in w.dropped + Answered(events) ensures WasEnded(w.log, a, end, n) {
      if n in w.dropped {
        EndedMore(w.log, a, m, end, n);
      } else {
        AnsweredInLog(w.log, events, a, m, end, n);
      }
    }
  }

  lemma AnsweredLater(log: seq<Envelope>, events: seq<Envelope>, a: nat, m: nat, end: nat, i: nat)
    requires Increasing(log) && a <= i < m <= end <= |log| && StoredAll(events) == log[m..end]
    ensures log[i].seqNo !in Answered(events)
  {
    if log[i].seqNo in Answered(events) {
      AnsweredInLog(log, events, a, m, end, log[i].seqNo);
      assert false;
    }
  }

  lemma DroppedElsewhere(w: World, events: seq<Envelope>, a: nat, m: nat, end: nat)
    requires Plain(w.log) && a <= m <= end <= |w.log| && StoredAll(events) == w.log[m..end]
    ensures
      var before := w.log[a..m];
      forall i :: 0 <= i < |before| ==>
        (before[i].seqNo in w.dropped <==> before[i].seqNo in w.dropped + Answered(events))
  {
    forall i | 0 <= i < m - a ensures w.log[a..m][i].seqNo !in Answered(events) {
      AnsweredLater(w.log, events, a, m, end, a + i);
    }
  }

  lemma DroppedHere(w: World, events: seq<Envelope>, a: nat, m: nat, end: nat)
    requires Plain(w.log) && Received(w, a, m) && m <= end <= |w.log|
    requires Increasing(events) && StoredAll(events) == w.log[m..end]
    ensures forall i :: 0 <= i < |events| ==>
      (events[i].seqNo in w.dropped + Answered(events)
       <==> events[i].event.PermissionRequest? && !HasSeq(Unended(events), events[i].seqNo))
  {
    forall i | 0 <= i < |events|
      ensures events[i].seqNo !in w.dropped
      ensures events[i].seqNo in Answered(events)
        <==> events[i].event.PermissionRequest? && !HasSeq(Unended(events), events[i].seqNo)
    {
      AnsweredIff(events, i);
      assert w.log[m..end][i] == events[i].Stored();
      NotDropped(w, a, m, m + i);
    }
  }

  lemma NotDropped(w: World, a: nat, m: nat, i: nat)
    requires Plain(w.log) && Received(w, a, m) && m <= i < |w.log|
    ensures w.log[i].seqNo !in w.dropped
  {
    if w.log[i].seqNo in w.dropped {
      DroppedBefore(w.log, a, m, i, w.log[i].seqNo);
      assert false;
    }
  }

  lemma FurthestAt(log: seq<Envelope>, x: nat, t: nat, k: nat, end: nat)
    requires Increasing(log) && x <= t <= |log| && x <= k <= |log| && end == if t < k then k else t
    ensures Furthest(At(log, k), LastOf(log[x..t])) == At(log, end)
  {
    if x < t {
      assert log[x..t][t - x - 1] == log[t - 1];
    }
  }

  /** The cache holds the rest of the live stream that the hydration already covered. */
  lemma CacheHolds(log: seq<Envelope>, buffer: seq<Envelope>, x: nat, t: nat, c: nat, end: nat)
    requires Increasing(log) && Increasing(buffer) && x <= c && x <= t <= |log| && end <= |log|
    requires end <= t || end <= c
    ensures Holds(SortBySeq(WithoutLive(log[x..t], buffer) + buffer), log, c, end)
  {
    var fetched := log[x..t];
    assert Increasing(fetched);
    var all := AllMissed(fetched, None, buffer);
    AllMissedHas(fetched, None, buffer);
    MissedPicks(fetched, None, buffer);
    forall i | c <= i < end ensures HasSeq(all, log[i].seqNo) {
      assert fetched[i - x] == log[i];
      if HasSeq(buffer, log[i].seqNo) {
        var b :| 0 <= b < |buffer| && buffer[b].seqNo == log[i].seqNo;
        assert buffer[b] in all;
      } else {
        assert Wanted(log[i], None, buffer);
        assert log[i] in all;
      }
    }
  }

  lemma CompleteCatching(w: World, a: nat, m: nat, k: nat, joined: nat, c: nat) returns (end: nat)
    requires Plain(w.log) && Enabled(w, Complete) && Catching(w, a, m, k, joined, c)
    ensures Current(Next(w, Complete), a, end, c)
    ensures Next(w, Complete).session.meta.Some? == w.session.meta.Some?
    ensures Next(w, Complete).session.attached == w.session.attached
  {
    var v := Next(w, Complete);
    var x, t := w.hydration.value.from, w.hydration.value.to;
    var buffer := w.session.replayBuffer;
    end := if t < k then k else t;
    AllMissedIs(w.log, buffer, x, t, m, k, joined, c, end);
    var events := AllMissed(w.log[x..t], At(w.log, m), buffer);
    CompleteReceived(w, v, events, a, m, end);
    FurthestAt(w.log, x, t, k, end);
    ConsumedCovered(w.log, buffer, m, k, joined, c, t, end);
    CacheHolds(w.log, buffer, x, t, c, end);
  }

  /** What was consumed of the stream is covered by the hydration and the buffer. */
  lemma ConsumedCovered(log: seq<Envelope>, buffer: seq<Envelope>, m: nat, k: nat, joined: nat, c: nat, t: nat,
                        end: nat)
    requires Increasing(log) && Buffers(buffer, log, m, k, joined, c) && k <= c <= |log| && joined <= t && joined <= c
    requires end == if t < k then k else t
    ensures c <= end
  {
    if c > joined {
      assert HasSeq(buffer, log[c - 1].seqNo);
      var b :| 0 <= b < |buffer| && buffer[b].seqNo == log[c - 1].seqNo;
      assert Copied(buffer[b], log[m..k]);
      var j :| 0 <= j < k - m && log[m..k][j].seqNo == buffer[b].seqNo;
      SameIndex(log, m + j, c - 1);
    }
  }

  /* Every run. */

  lemma StepKeeps(w: World, step: Step, a: nat)
    requires Inv(w, a) && Enabled(w, step)
    ensures Inv(Next(w, step), a)
  {
    if step.Connect? {
      ConnectKeeps(w, a);
    } else if step.Disconnect? {
      DisconnectKeeps(w, a);
    } else if step.Hydrate? {
      HydrateKeeps(w, a, step.from);
    } else if k: nat, c: nat :| Current(w, a, k, c) {
      CurrentKeeps(w, step, a, k, c);
    } else {
      var m: nat, k: nat, joined: nat, c: nat :| Catching(w, a, m, k, joined, c);
      CatchingKeeps(w, step, a, m, k, joined, c);
    }
  }

  lemma CurrentKeeps(w: World, step: Step, a: nat, k: nat, c: nat)
    requires Inv(w, a) && Enabled(w, step) && Current(w, a, k, c) && (step.Append? || step.Deliver? || step.Complete?)
    ensures Inv(Next(w, step), a)
  {
    if step.Append? {
      PlainAppend(w.log, step.e);
      AppendCurrent(w, step.e, a, k, c);
    } else {
      assert step.Deliver?;
      var l := DeliverCurrent(w, a, k, c);
    }
  }

  lemma CatchingKeeps(w: World, step: Step, a: nat, m: nat, k: nat, joined: nat, c: nat)
    requires Inv(w, a) && Enabled(w, step) && Catching(w, a, m, k, joined, c)
      && (step.Append? || step.Deliver? || step.Complete?)
    ensures Inv(Next(w, step), a)
  {
    if step.Append? {
      PlainAppend(w.log, step.e);
      AppendCatching(w, step.e, a, m, k, joined, c);
    } else if step.Deliver? {
      DeliverCatching(w, a, m, k, joined, c);
    } else {
      var end := CompleteCatching(w, a, m, k, joined, c);
    }
  }

  /** The worlds of a run, one per step and the first. */
  predicate IsRun(worlds: seq<World>, steps: seq<Step>) {
    && |worlds| == |steps| + 1
    && forall i :: 0 <= i < |steps| ==> Enabled(worlds[i], steps[i]) && worlds[i + 1] == Next(worlds[i], steps[i])
  }

  lemma {:induction false} RunKeeps(worlds: seq<World>, steps: seq<Step>, i: nat)
    requires IsRun(worlds, steps) && Start(worlds[0]) && i < |worlds|
    ensures Inv(worlds[i], |worlds[0].log|)
  {
    if i == 0 {
      var w := worlds[0];
      var a := |w.log|;
      assert w.log[a..a] == [];
      assert Streams(w.pipe, w.log, a);
      assert Current(w, a, a, a);
    } else {
      RunKeeps(worlds, steps, i - 1);
      StepKeeps(worlds[i - 1], steps[i - 1], |worlds[0].log|);
    }
  }

  /**
   * In every reachable world the client has received, once and in order, a stretch of the log from where it
   * attached, without the permission requests that had already ended. While the bridge is connected and no catch-up
   * is open, only events still in the stream are missing.
   */
  lemma ExactlyOnce(worlds: seq<World>, steps: seq<Step>, i: nat)
    requires IsRun(worlds, steps) && Start(worlds[0]) && i < |worlds|
    ensures exists k: nat ::
      && Received(worlds[i], |worlds[0].log|, k)
      && (worlds[i].connected && worlds[i].session.resumeAfter.None? ==> k + |worlds[i].pipe| >= |worlds[i].log|)
  {
    RunKeeps(worlds, steps, i);
    var w, a := worlds[i], |worlds[0].log|;
    if k: nat, c: nat :| Current(w, a, k, c) {
      assert Received(w, a, k);
    } else {
      var m: nat, k: nat, joined: nat, c: nat :| Catching(w, a, m, k, joined, c);
      assert Received(w, a, m);
    }
  }

  lemma {:induction false} VisibleIncreases(s: seq<Envelope>, dropped: set<nat>)
    requires Increasing(s)
    ensures Increasing(Visible(s, dropped))
    ensures forall e :: e in Visible(s, dropped) ==> e in s
  {
    if s != [] {
      var init := s[..|s| - 1];
      VisibleIncreases(init, dropped);
      forall e | e in Visible(init, dropped) ensures e.seqNo < s[|s| - 1].seqNo {
        var i :| 0 <= i < |init| && init[i] == e;
      }
    }
  }

  /** What the client received is strictly increasing: no duplicate, nothing out of order. */
  lemma ReceivedIncreases(worlds: seq<World>, steps: seq<Step>, i: nat)
    requires IsRun(worlds, steps) && Start(worlds[0]) && i < |worlds|
    ensures Increasing(worlds[i].received)
  {
    ExactlyOnce(worlds, steps, i);
    RunKeeps(worlds, steps, i);
    var w, a := worlds[i], |worlds[0].log|;
    var k: nat :| Received(w, a, k);
    VisibleIncreases(w.log[a..k], w.dropped);
    assert forall j :: 0 <= j < |w.received| ==> w.received[j].seqNo == StoredAll(w.received)[j].seqNo;
  }
}
