/** What the bridge keeps of one session, and how snapshots, live events and catch-ups change it. */
module Cache {
  import opened Results
  import opened Transcript
  import opened Permissions

  const EVENT_CACHE_LIMIT: nat := 1000

  datatype Meta = Meta(status: Status, title: string, closing: bool)

  datatype Session = Session(
    meta: Option<Meta>,
    events: seq<Envelope>,
    reachedStart: bool,
    attached: bool,
    replaying: bool,
    replayBuffer: seq<Envelope>,
    resumeAfter: Option<Option<nat>>,
    lastSeq: Option<nat>,
    lastDetail: Option<string>)

  const EMPTY_SESSION := Session(None, [], false, false, false, [], None, None, None)

  datatype Snapshot = Snapshot(events: seq<Envelope>, reachedStart: bool)

  /* Positions: `None` is before every event. */

  predicate After(n: nat, position: Option<nat>) {
    position.None? || n > position.value
  }

  function Furthest(a: Option<nat>, b: Option<nat>): Option<nat> {
    if a.None? then b else if b.None? then a else Some(if a.value < b.value then b.value else a.value)
  }

  function LastOf(events: seq<Envelope>): Option<nat> {
    if events == [] then None else Some(events[|events| - 1].seqNo)
  }

  /** The detail of the last lifecycle event, if there is one. */
  function LastDetail(events: seq<Envelope>): Option<Option<string>> {
    if events == [] then None
    else
      var last := events[|events| - 1].event;
      if last.Lifecycle? then Some(last.detail) else LastDetail(events[..|events| - 1])
  }

  function ApplySnapshot(s: Session, snapshot: Snapshot): Session {
    var detail := LastDetail(snapshot.events);
    s.(lastSeq := Furthest(s.lastSeq, LastOf(snapshot.events)),
       lastDetail := if detail.Some? then detail.value else s.lastDetail,
       events := snapshot.events,
       reachedStart := snapshot.reachedStart)
  }

  /** Hydration and the live stream overlap; a sequence number is applied once. */
  predicate IsDuplicate(s: Session, e: Envelope) {
    s.lastSeq.Some? && e.seqNo <= s.lastSeq.value && HasSeq(s.events, e.seqNo)
  }

  function Noticed(s: Session, e: Event): Session {
    if e.Lifecycle? then
      s.(meta := if s.meta.Some? then Some(s.meta.value.(status := e.status)) else None, lastDetail := e.detail)
    else s
  }

  function Cached(s: Session, e: Envelope): Session {
    var events := s.events + [e];
    if |events| > EVENT_CACHE_LIMIT
    then s.(events := events[|events| - EVENT_CACHE_LIMIT..], reachedStart := false)
    else s.(events := events)
  }

  predicate Forwards(s: Session) {
    s.attached && !s.replaying
  }

  /** A live event that is not a duplicate. */
  function ApplyLive(s: Session, e: Envelope): Session {
    var noticed := Cached(Noticed(s.(lastSeq := Furthest(s.lastSeq, Some(e.seqNo))), e.event), e);
    if noticed.replaying then noticed.(replayBuffer := noticed.replayBuffer + [e]) else noticed
  }

  /** What a live event sends to the client. */
  function LiveForward(s: Session, e: Envelope): seq<Envelope> {
    if !IsDuplicate(s, e) && Forwards(s) then [e] else []
  }

  function HandleLive(s: Session, e: Envelope): Session {
    if IsDuplicate(s, e) then s else ApplyLive(s, e)
  }

  predicate CatchesUp(s: Session) {
    s.attached && s.meta.Some? && (!s.replaying || s.resumeAfter.Some?)
  }

  function BeginCatchUp(s: Session): Session {
    if CatchesUp(s)
    then s.(replaying := true, resumeAfter := if s.resumeAfter.Some? then s.resumeAfter else Some(s.lastSeq))
    else s
  }

  /** The hydrated events the client did not receive and that are not buffered. */
  function Missed(events: seq<Envelope>, resume: Option<nat>, live: seq<Envelope>): seq<Envelope> {
    if events == [] then []
    else
      var init, last := events[..|events| - 1], events[|events| - 1];
      Missed(init, resume, live) + if After(last.seqNo, resume) && !HasSeq(live, last.seqNo) then [last] else []
  }

  function WithoutLive(events: seq<Envelope>, live: seq<Envelope>): seq<Envelope> {
    Missed(events, None, live)
  }

  /** Without the requests that were answered meanwhile. */
  function StillAsked(events: seq<Envelope>, open: seq<Envelope>): seq<Envelope> {
    if events == [] then []
    else
      var init, last := events[..|events| - 1], events[|events| - 1];
      StillAsked(init, open) + if !last.event.PermissionRequest? || HasSeq(open, last.seqNo) then [last] else []
  }

  datatype CatchUp = CatchUp(session: Session, hydrated: seq<Envelope>, events: seq<Envelope>)

  /** Closes a catch-up with what was fetched; `None` when the session was detached or reloaded meanwhile. */
  function CompleteCatchUp(s: Session, fetched: Option<Snapshot>): Option<CatchUp> {
    if s.resumeAfter.None? then None
    else
      var buffered := s.replayBuffer;
      var hydrated := if fetched.Some? then Missed(fetched.value.events, s.resumeAfter.value, buffered) else [];
      var closed := s.(resumeAfter := None, replaying := false, replayBuffer := []);
      var adopted :=
        if fetched.None? then closed
        else
          var applied := ApplySnapshot(closed, fetched.value);
          applied.(events := SortBySeq(WithoutLive(applied.events, buffered) + buffered));
      var events := SortBySeq(hydrated + buffered);
      Some(CatchUp(adopted, hydrated, StillAsked(events, Unended(events))))
  }

  /* The cache of one session, updated in place. */

  class CachedSession {
    var meta: Option<Meta>
    var events: seq<Envelope>
    var reachedStart: bool
    var attached: bool
    var replaying: bool
    var replayBuffer: seq<Envelope>
    var resumeAfter: Option<Option<nat>>
    var lastSeq: Option<nat>
    var lastDetail: Option<string>

    ghost function View(): Session
      reads this
    {
      Session(meta, events, reachedStart, attached, replaying, replayBuffer, resumeAfter, lastSeq, lastDetail)
    }

    constructor ()
      ensures View() == EMPTY_SESSION
    {
      meta, events, reachedStart, attached, replaying, replayBuffer := None, [], false, false, false, [];
      resumeAfter, lastSeq, lastDetail := None, None, None;
    }

    method Apply(snapshot: Snapshot)
      modifies this
      ensures View() == ApplySnapshot(old(View()), snapshot)
    {
      if snapshot.events != [] {
        var last := snapshot.events[|snapshot.events| - 1].seqNo;
        if lastSeq.None? || lastSeq.value < last {
          lastSeq := Some(last);
        }
      }
      var i := |snapshot.events|;
      assert snapshot.events[..i] == snapshot.events;
      while i > 0 && !snapshot.events[i - 1].event.Lifecycle?
        invariant 0 <= i <= |snapshot.events|
        invariant LastDetail(snapshot.events[..i]) == LastDetail(snapshot.events)
        invariant View() == old(View()).(lastSeq := Furthest(old(lastSeq), LastOf(snapshot.events)))
      {
        assert snapshot.events[..i][..i - 1] == snapshot.events[..i - 1];
        i := i - 1;
      }
      if i > 0 {
        lastDetail := snapshot.events[i - 1].event.detail;
      }
      events := snapshot.events;
      reachedStart := snapshot.reachedStart;
    }

    method Push(e: Envelope)
      modifies this`events, this`reachedStart
      ensures View() == Cached(old(View()), e)
    {
      events := events + [e];
      if |events| > EVENT_CACHE_LIMIT {
        events := events[|events| - EVENT_CACHE_LIMIT..];
        reachedStart := false;
      }
    }

    /** A live event; says whether it is forwarded to the client. */
    method Live(e: Envelope) returns (forward: bool)
      modifies this
      ensures View() == HandleLive(old(View()), e)
      ensures forward <==> LiveForward(old(View()), e) != []
    {
      if lastSeq.Some? && e.seqNo <= lastSeq.value && HasSeq(events, e.seqNo) {
        return false;
      }
      if lastSeq.None? || lastSeq.value < e.seqNo {
        lastSeq := Some(e.seqNo);
      }
      if e.event.Lifecycle? {
        if meta.Some? {
          meta := Some(meta.value.(status := e.event.status));
        }
        lastDetail := e.event.detail;
      }
      Push(e);
      if replaying {
        replayBuffer := replayBuffer + [e];
      }
      return attached && !replaying;
    }

    method Begin()
      modifies this
      ensures View() == BeginCatchUp(old(View()))
    {
      if attached && meta.Some? && (!replaying || resumeAfter.Some?) {
        replaying := true;
        if resumeAfter.None? {
          resumeAfter := Some(lastSeq);
        }
      }
    }

    method Retained(all: seq<Envelope>, resume: Option<nat>, live: seq<Envelope>) returns (kept: seq<Envelope>)
      ensures kept == Missed(all, resume, live)
    {
      kept := [];
      var i := 0;
      while i < |all|
        invariant i <= |all| && kept == Missed(all[..i], resume, live)
      {
        assert all[..i + 1][..i] == all[..i];
        if After(all[i].seqNo, resume) && !HasSeq(live, all[i].seqNo) {
          kept := kept + [all[i]];
        }
        i := i + 1;
      }
      assert all[..i] == all;
    }

    /** Adopts a snapshot, and what was buffered while it was fetched. */
    method Merge(snapshot: Snapshot, buffered: seq<Envelope>)
      modifies this
      ensures
        var applied := ApplySnapshot(old(View()), snapshot);
        View() == applied.(events := SortBySeq(WithoutLive(applied.events, buffered) + buffered))
    {
      Apply(snapshot);
      events := Retained(events, None, buffered);
      events := events + buffered;
      events := SortBySeq(events);
    }

    method WithoutAnswered(all: seq<Envelope>, open: seq<Envelope>) returns (kept: seq<Envelope>)
      ensures kept == StillAsked(all, open)
    {
      kept := [];
      var i := 0;
      while i < |all|
        invariant i <= |all| && kept == StillAsked(all[..i], open)
      {
        assert all[..i + 1][..i] == all[..i];
        if !all[i].event.PermissionRequest? || HasSeq(open, all[i].seqNo) {
          kept := kept + [all[i]];
        }
        i := i + 1;
      }
      assert all[..i] == all;
    }

    method Complete(fetched: Option<Snapshot>) returns (r: Option<CatchUp>)
      modifies this
      ensures r == CompleteCatchUp(old(View()), fetched)
      ensures View() == if r.Some? then r.value.session else old(View())
    {
      if resumeAfter.None? {
        return None;
      }
      var resume := resumeAfter.value;
      resumeAfter := None;
      replaying := false;
      var buffered := replayBuffer;
      replayBuffer := [];
      var hydrated := [];
      if fetched.Some? {
        hydrated := Retained(fetched.value.events, resume, buffered);
        Merge(fetched.value, buffered);
      }
      var all := SortBySeq(hydrated + buffered);
      var open := UnresolvedPermissionRequests(all);
      var kept := WithoutAnswered(all, open);
      return Some(CatchUp(Session(meta, events, reachedStart, attached, replaying, replayBuffer, resumeAfter,
                                  lastSeq, lastDetail),
                          hydrated, kept));
    }
  }
}
