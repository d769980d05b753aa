/** What the timers of the subagent fold leave behind: no text that waits too long, no silent child that reports. */
module SubagentTimers {
  import opened Results
  import opened Texts
  import opened SubagentFold
  import opened SubagentLaws

  /** The child's streamed text is shown, or was shown less than the interval ago. */
  predicate Fresh(c: Child, now: nat) {
    c.dirty ==> c.lastPublish.Some? && now < c.lastPublish.value + TEXT_PUBLISH_INTERVAL
  }

  /** The child runs, and nothing was heard of it for as long as makes it silent. */
  predicate Silent(c: Child, now: nat) {
    c.state == Some(Running) && c.lastTraffic.Some? && now >= c.lastTraffic.value + QUIET_AFTER
  }

  lemma {:induction false} DueIdsAre(s: State, ids: seq<Bytes>, now: nat, id: Bytes)
    ensures id in DueIds(s, ids, now) <==> id in ids && id in s.children && !Fresh(s.children[id], now)
  {
    if ids != [] {
      var init, last := ids[..|ids| - 1], ids[|ids| - 1];
      assert ids == init + [last];
      DueIdsAre(s, init, now, id);
    }
  }

  lemma {:induction false} SilentIdsAre(s: State, ids: seq<Bytes>, now: nat, id: Bytes)
    ensures id in SilentIds(s, ids, now)
      <==> id in ids && id in s.children && !s.children[id].quiet && Silent(s.children[id], now)
  {
    if ids != [] {
      var init, last := ids[..|ids| - 1], ids[|ids| - 1];
      assert ids == init + [last];
      SilentIdsAre(s, init, now, id);
    }
  }

  /** A child is published, and shown as it is, if it is listed, and left alone otherwise. */
  lemma {:induction false} PublishedAll(s: State, ids: seq<Bytes>, now: nat, nowMs: nat, id: Bytes)
    requires id in s.children
    ensures
      var r := PublishAll(s, ids, now, nowMs);
      && id in r.state.children
      && r.state.children[id] == (if id in ids then Stamped(s.children[id], now) else s.children[id])
      && (id in ids <==> exists k :: 0 <= k < |r.snapshots| && r.snapshots[k].Some? && r.snapshots[k].value.id == id)
  {
    if ids != [] {
      var init, last := ids[..|ids| - 1], ids[|ids| - 1];
      assert ids == init + [last];
      PublishedAll(s, init, now, nowMs, id);
      var before := PublishAll(s, init, now, nowMs);
      var after := Publish(before.state, last, now, nowMs);
      var all := before.snapshots + after.snapshots;
      assert all[|before.snapshots|] == after.snapshots[0];
      assert forall k :: 0 <= k < |before.snapshots| ==> all[k] == before.snapshots[k];
    }
  }

  /** After the text timer every child's text is shown or fresh; exactly the children that waited are published. */
  lemma DueShowsAll(s: State, now: nat, nowMs: nat, id: Bytes)
    requires Books(s) && id in s.children
    ensures
      var r := Due(s, now, nowMs);
      && id in r.state.children && Fresh(r.state.children[id], now)
      && (!Fresh(s.children[id], now) <==>
            exists k :: 0 <= k < |r.snapshots| && r.snapshots[k].Some? && r.snapshots[k].value.id == id)
  {
    DueIdsAre(s, s.order, now, id);
    PublishedAll(s, DueIds(s, s.order, now), now, nowMs, id);
  }

  /** A silenced child is published as no longer reporting; the others are left alone. */
  lemma {:induction false} SilencedAll(s: State, ids: seq<Bytes>, now: nat, nowMs: nat, id: Bytes)
    requires id in s.children
    ensures
      var t := SilenceAll(s, ids, now, nowMs).state;
      && id in t.children
      && t.children[id] == if id in ids then Stamped(s.children[id].(quiet := true), now) else s.children[id]
  {
    if ids != [] {
      var init, last := ids[..|ids| - 1], ids[|ids| - 1];
      assert ids == init + [last];
      SilencedAll(s, init, now, nowMs, id);
    }
  }

  /** After the silence timer, a child is quiet exactly when it was, or has been silent for as long as it takes. */
  lemma QuietIff(s: State, now: nat, nowMs: nat, id: Bytes)
    requires Books(s) && id in s.children
    ensures
      var t := Quiet(s, now, nowMs).state;
      id in t.children && (t.children[id].quiet <==> s.children[id].quiet || Silent(s.children[id], now))
  {
    SilentIdsAre(s, s.order, now, id);
    SilencedAll(s, SilentIds(s, s.order, now), now, nowMs, id);
  }

  /* Revisions follow the clock, so they rise across restarts too. */

  predicate Dated(snapshots: seq<Option<Snapshot>>, nowMs: nat) {
    forall k :: 0 <= k < |snapshots| && snapshots[k].Some? ==> snapshots[k].value.revision >= nowMs
  }

  lemma {:induction false} PublishAllDated(s: State, ids: seq<Bytes>, now: nat, nowMs: nat)
    ensures Dated(PublishAll(s, ids, now, nowMs).snapshots, nowMs)
  {
    if ids != [] {
      PublishAllDated(s, ids[..|ids| - 1], now, nowMs);
    }
  }

  lemma {:induction false} SilenceAllDated(s: State, ids: seq<Bytes>, now: nat, nowMs: nat)
    ensures Dated(SilenceAll(s, ids, now, nowMs).snapshots, nowMs)
  {
    if ids != [] {
      SilenceAllDated(s, ids[..|ids| - 1], now, nowMs);
    }
  }

  lemma RouteChildDated(s: State, id: Bytes, u: Update, now: nat, nowMs: nat)
    requires id in s.children
    ensures Dated(RouteChild(s, id, u, now, nowMs).snapshots, nowMs)
  {
  }

  /** Every snapshot a step publishes has at least the time of the step as its revision. */
  lemma RevisionsDated(s: State, step: Step)
    requires !step.TurnEnding?
    ensures Dated(Effect(s, step).snapshots, step.nowMs)
  {
    if step.Dueing? {
      PublishAllDated(s, DueIds(s, s.order, step.now), step.now, step.nowMs);
    } else if step.Quieting? {
      SilenceAllDated(s, SilentIds(s, s.order, step.now), step.now, step.nowMs);
    } else if step.id in s.children {
      RouteChildDated(s, step.id, step.update, step.now, step.nowMs);
    } else {
      var linked := if step.update.IsMessage() then LinkMessage(s, step.id, step.update).state else s;
      PublishAllDated(linked, DueIds(linked, linked.order, step.now), step.now, step.nowMs);
    }
  }
}
