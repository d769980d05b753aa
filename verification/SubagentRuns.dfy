/** Every run of the subagent fold: what holds in each state it reaches. */
module SubagentRuns {
  import opened Results
  import opened Texts
  import opened SubagentFold
  import opened SubagentLaws

  lemma ConservedIn(t: Trace, id: Bytes, pending: set<Bytes>)
    requires Inv(t, pending) && id in t.state.children
    ensures Conserved(t.state.children[id])
  {
    assert Tracked(t.log, t.born[id], id, t.state.children[id], id in pending);
  }

  lemma ChildPublished(t: Trace, id: Bytes, d: Child, now: nat, nowMs: nat, pending: set<Bytes>, after: set<Bytes>)
    requires Inv(t, pending) && id in t.state.children && Keeps(t.state.children[id], d)
    requires pending <= after + {id}
    ensures Inv(Published(t.(state := WithChild(t.state, id, d)), id, now, nowMs), after)
  {
    ChildKeeps(t, id, d, pending, pending + {id});
    PublishKeeps(t.(state := WithChild(t.state, id, d)), id, now, nowMs, pending + {id}, after);
  }

  /** `v` is what operation outcome `r` makes of `t`; a child born in it was born before anything it published. */
  ghost predicate Yields(t: Trace, v: Trace, r: Outcome) {
    && v.state == r.state
    && v.log == t.log + r.snapshots
    && forall id :: id in v.born ==> v.born[id] == if id in t.born then t.born[id] else |t.log|
  }

  lemma YieldsExtended(t: Trace, v: Trace, r: Outcome, pending: set<Bytes>)
    requires Inv(t, {}) && Inv(v, pending) && Yields(t, v, r)
    ensures Inv(Extended(t, r), pending)
  {
    assert Extended(t, r) == v;
  }

  /** Two operations in a row; no child is born in the second. */
  lemma YieldsJoin(t: Trace, v: Trace, w: Trace, r: Outcome, q: Outcome)
    requires Yields(t, v, r) && Yields(v, w, q) && w.born.Keys <= v.born.Keys
    ensures Yields(t, w, Outcome(q.state, r.snapshots + q.snapshots))
  {
  }

  function AnnouncedTrace(t: Trace, id: Bytes, u: Update, now: nat, nowMs: nat): Trace
    requires id in t.state.children && u.SubagentUpdate?
  {
    Published(t.(state := WithChild(t.state, id, Announced(t.state.children[id], u, now))), id, now, nowMs)
  }

  lemma LabelsKeep(c: Child, u: Update, now: nat)
    requires u.SubagentUpdate? && Conserved(c)
    ensures Keeps(c, Announced(c, u, now))
  {
    SameKeeps(c, Announced(c, u, now));
  }

  lemma AnnouncedKeeps(t: Trace, id: Bytes, u: Update, now: nat, nowMs: nat, pending: set<Bytes>, after: set<Bytes>)
    requires Inv(t, pending) && id in t.state.children && u.SubagentUpdate? && pending <= after + {id}
    ensures Inv(AnnouncedTrace(t, id, u, now, nowMs), after)
  {
    ConservedIn(t, id, pending);
    LabelsKeep(t.state.children[id], u, now);
    ChildPublished(t, id, Announced(t.state.children[id], u, now), now, nowMs, pending, after);
  }

  lemma AnnouncedYields(t: Trace, k: Trace, id: Bytes, parent: Option<Bytes>, u: Update, now: nat, nowMs: nat)
    requires u.SubagentUpdate? && u.sessionId == Some(id) && id != [] && u.sessionId != parent
    requires t.born.Keys == t.state.children.Keys
    requires k == if id in t.state.children then t else Inserted(t, id, parent)
    ensures id in k.state.children
    ensures Yields(t, AnnouncedTrace(k, id, u, now, nowMs), Announce(t.state, parent, u, now, nowMs))
  {
    InsertedChildren(t.state, id, parent);
  }

  lemma AnnounceKeeps(t: Trace, parent: Option<Bytes>, u: Update, now: nat, nowMs: nat, pending: set<Bytes>)
    returns (v: Trace)
    requires Inv(t, pending) && u.SubagentUpdate?
    ensures Yields(t, v, Announce(t.state, parent, u, now, nowMs)) && Inv(v, pending)
  {
    if u.sessionId.None? || u.sessionId.value == [] || u.sessionId == parent {
      v := t;
    } else if u.sessionId.value in t.state.children {
      var id := u.sessionId.value;
      AnnouncedYields(t, t, id, parent, u, now, nowMs);
      AnnouncedKeeps(t, id, u, now, nowMs, pending, pending);
      v := AnnouncedTrace(t, id, u, now, nowMs);
    } else {
      var id := u.sessionId.value;
      InsertKeeps(t, id, parent, pending);
      AnnouncedYields(t, Inserted(t, id, parent), id, parent, u, now, nowMs);
      AnnouncedKeeps(Inserted(t, id, parent), id, u, now, nowMs, pending + {id}, pending);
      v := AnnouncedTrace(Inserted(t, id, parent), id, u, now, nowMs);
    }
  }

  /* Updates of a child that is already known. */

  function WithState(t: Trace, s: State): Trace {
    t.(state := s)
  }

  /** Child `id` becomes `d`, and the links `links`. */
  lemma RelinkKeeps(t: Trace, id: Bytes, d: Child, links: map<LinkKey, Linked>, pending: set<Bytes>, after: set<Bytes>)
    requires Inv(t, pending) && id in t.state.children && Keeps(t.state.children[id], d)
    requires pending <= after && (id in after || KeepsMirror(t.state.children[id], d))
    requires forall k :: k in links ==> links[k].child in t.state.children
    ensures Inv(t.(state := WithChild(t.state, id, d).(links := links)), after)
  {
    ChildKeeps(t, id, d, pending, after);
    LinkKeeps(t.(state := WithChild(t.state, id, d)), links, after);
  }

  lemma LinksLive(t: Trace, pending: set<Bytes>, key: LinkKey, linking: Linking)
    requires Inv(t, pending) && (linking.NewLink? ==> linking.linked.child in t.state.children)
    ensures
      var links := WithLink(t.state, key, linking).links;
      forall k :: k in links ==> links[k].child in t.state.children
  {
  }

  lemma MessageKeeps(c: Child, link: Link, u: Update)
    requires u.IsMessage() && Conserved(c)
    ensures Keeps(c, WithMessage(c, link, u))
  {
    SameKeeps(c, WithMessage(c, link, u));
  }

  lemma SameMirror(c: Child)
    ensures KeepsMirror(c, c)
  {
  }

  lemma InvMore(t: Trace, pending: set<Bytes>, after: set<Bytes>)
    requires Inv(t, pending) && pending <= after
    ensures Inv(t, after)
  {
    forall x | x in t.state.children ensures Tracked(t.log, t.born[x], x, t.state.children[x], x in after) {
      assert Tracked(t.log, t.born[x], x, t.state.children[x], x in pending);
    }
  }

  lemma LinkedMessageKeeps(t: Trace, id: Bytes, u: Update, key: LinkKey, linking: Linking, pending: set<Bytes>,
                           after: set<Bytes>)
    requires Inv(t, pending) && id in t.state.children && u.IsMessage() && pending <= after
    requires !linking.NoLink? && linking.linked.child == id
    requires id in after || WithMessage(t.state.children[id], linking.linked.link, u) == t.state.children[id]
    ensures
      var d := WithMessage(t.state.children[id], linking.linked.link, u);
      Inv(WithState(t, WithLink(t.state, key, linking).(children := t.state.children[id := d])), after)
  {
    var c := t.state.children[id];
    ConservedIn(t, id, pending);
    MessageKeeps(c, linking.linked.link, u);
    SameMirror(c);
    LinksLive(t, pending, key, linking);
    RelinkKeeps(t, id, WithMessage(c, linking.linked.link, u), WithLink(t.state, key, linking).links, pending, after);
  }

  lemma AbsorbMessageKeeps(t: Trace, id: Bytes, u: Update, pending: set<Bytes>, after: set<Bytes>)
    requires Inv(t, pending) && id in t.state.children && u.IsMessage() && pending <= after
    requires id in after || !AbsorbMessage(t.state, id, u).republish
    ensures Inv(WithState(t, AbsorbMessage(t.state, id, u).state), after)
  {
    if u.messageId.None? || ChildLink(t.state, LinkKey(id, u.messageId.value), u).NoLink? {
      InvMore(t, pending, after);
    } else {
      var key := LinkKey(id, u.messageId.value);
      LinkedMessageKeeps(t, id, u, key, ChildLink(t.state, key, u), pending, after);
    }
  }

  lemma AbsorbKeeps(t: Trace, id: Bytes, u: Update, now: nat, pending: set<Bytes>, after: set<Bytes>)
    requires Inv(t, pending) && id in t.state.children && pending <= after
    requires id in after || !Absorb(t.state, id, u, now).republish
    ensures Inv(WithState(t, Absorb(t.state, id, u, now).state), after)
  {
    if u.IsMessage() {
      AbsorbMessageKeeps(t, id, u, pending, after);
    } else {
      var c := t.state.children[id];
      ConservedIn(t, id, pending);
      FoldKeeps(c, u, now);
      if id !in after {
        FoldKeepsMirror(c, u, now);
      }
      ChildKeeps(t, id, Fold(c, u, now).child, pending, after);
    }
  }

  lemma TouchKeeps(t: Trace, id: Bytes, now: nat, pending: set<Bytes>, after: set<Bytes>)
    requires Inv(t, pending) && id in t.state.children && pending <= after
    requires id in after || !t.state.children[id].quiet
    ensures Inv(WithState(t, Touch(t.state, id, now)), after)
  {
    var c := t.state.children[id];
    var d := c.(lastTraffic := Some(now), quiet := false);
    ConservedIn(t, id, pending);
    SameKeeps(c, d);
    if !c.quiet {
      assert BodyOf(d) == BodyOf(c);
    }
    ChildKeeps(t, id, d, pending, after);
  }

  function Touched(t: Trace, id: Bytes, now: nat): Trace
    requires id in t.state.children
  {
    WithState(t, Touch(t.state, id, now))
  }

  function PublishedIf(t: Trace, wanted: bool, id: Bytes, now: nat, nowMs: nat): Trace {
    if wanted then Published(t, id, now, nowMs) else t
  }

  lemma PublishedIfKeeps(t: Trace, wanted: bool, id: Bytes, now: nat, nowMs: nat)
    requires Inv(t, if wanted then {id} else {})
    ensures Inv(PublishedIf(t, wanted, id, now, nowMs), {})
  {
    if wanted {
      PublishKeeps(t, id, now, nowMs, {id}, {});
    }
  }

  lemma RouteAnnounceYields(t: Trace, a: Trace, id: Bytes, u: Update, now: nat, nowMs: nat)
    requires id in t.state.children && u.SubagentUpdate?
    requires Yields(Touched(t, id, now), a, Announce(Touch(t.state, id, now), Some(id), u, now, nowMs))
    ensures Yields(t, PublishedIf(a, t.state.children[id].quiet, id, now, nowMs),
      RouteChild(t.state, id, u, now, nowMs))
  {
  }

  lemma RouteAnnounceKeeps(t: Trace, id: Bytes, u: Update, now: nat, nowMs: nat) returns (v: Trace)
    requires Inv(t, {}) && id in t.state.children && u.SubagentUpdate?
    ensures Yields(t, v, RouteChild(t.state, id, u, now, nowMs)) && Inv(v, {})
  {
    var resumed := t.state.children[id].quiet;
    var pending := if resumed then {id} else {};
    TouchKeeps(t, id, now, {}, pending);
    var a := AnnounceKeeps(Touched(t, id, now), Some(id), u, now, nowMs, pending);
    RouteAnnounceYields(t, a, id, u, now, nowMs);
    PublishedIfKeeps(a, resumed, id, now, nowMs);
    v := PublishedIf(a, resumed, id, now, nowMs);
  }

  function RouteAbsorbTrace(t: Trace, id: Bytes, u: Update, now: nat, nowMs: nat): Trace
    requires id in t.state.children
  {
    var absorbed := Absorb(Touch(t.state, id, now), id, u, now);
    PublishedIf(WithState(t, absorbed.state), absorbed.republish || t.state.children[id].quiet, id, now, nowMs)
  }

  lemma RouteAbsorbYields(t: Trace, id: Bytes, u: Update, now: nat, nowMs: nat)
    requires id in t.state.children && !u.SubagentUpdate?
    requires t.born.Keys == t.state.children.Keys
    ensures Yields(t, RouteAbsorbTrace(t, id, u, now, nowMs), RouteChild(t.state, id, u, now, nowMs))
  {
  }

  lemma AbsorbPublishKeeps(t: Trace, wanted: bool, id: Bytes, u: Update, now: nat, nowMs: nat)
    requires id in t.state.children && Inv(t, if wanted then {id} else {})
    requires wanted || !Absorb(t.state, id, u, now).republish
    ensures Inv(PublishedIf(WithState(t, Absorb(t.state, id, u, now).state), wanted, id, now, nowMs), {})
  {
    var pending := if wanted then {id} else {};
    AbsorbKeeps(t, id, u, now, pending, pending);
    PublishedIfKeeps(WithState(t, Absorb(t.state, id, u, now).state), wanted, id, now, nowMs);
  }

  lemma RouteAbsorbKeeps(t: Trace, id: Bytes, u: Update, now: nat, nowMs: nat)
    requires Inv(t, {}) && id in t.state.children
    ensures Inv(RouteAbsorbTrace(t, id, u, now, nowMs), {})
  {
    var wanted := Absorb(Touch(t.state, id, now), id, u, now).republish || t.state.children[id].quiet;
    TouchKeeps(t, id, now, {}, if wanted then {id} else {});
    AbsorbPublishKeeps(Touched(t, id, now), wanted, id, u, now, nowMs);
  }

  lemma RouteChildKeeps(t: Trace, id: Bytes, u: Update, now: nat, nowMs: nat) returns (v: Trace)
    requires Inv(t, {}) && id in t.state.children
    ensures Yields(t, v, RouteChild(t.state, id, u, now, nowMs)) && Inv(v, {})
  {
    if u.SubagentUpdate? {
      v := RouteAnnounceKeeps(t, id, u, now, nowMs);
    } else {
      RouteAbsorbYields(t, id, u, now, nowMs);
      RouteAbsorbKeeps(t, id, u, now, nowMs);
      v := RouteAbsorbTrace(t, id, u, now, nowMs);
    }
  }

  /* Messages of the root transcript. */

  /** The trace after a root message; the child it reaches, if any, is to be published. */
  lemma LinkMessageKeeps(t: Trace, transcript: Bytes, u: Update)
    requires Inv(t, {}) && u.IsMessage()
    ensures
      var r := LinkMessage(t.state, transcript, u);
      && Inv(WithState(t, r.state), if r.child.Some? then {r.child.value} else {})
      && (r.child.Some? ==> r.child.value in t.state.children)
  {
    var r := LinkMessage(t.state, transcript, u);
    if u.messageId.Some? {
      var key := LinkKey(transcript, u.messageId.value);
      var linking := RootLink(t.state, key, u);
      if !linking.NoLink? {
        LinkedMessageKeeps(t, linking.linked.child, u, key, linking, {}, {linking.linked.child});
      }
    }
  }

  function RootMessageTrace(t: Trace, transcript: Bytes, u: Update, now: nat, nowMs: nat): Trace
    requires u.IsMessage() && LinkMessage(t.state, transcript, u).child.Some?
  {
    var r := LinkMessage(t.state, transcript, u);
    Published(WithState(t, r.state), r.child.value, now, nowMs)
  }

  lemma RootMessageKeeps(t: Trace, transcript: Bytes, u: Update, now: nat, nowMs: nat)
    requires Inv(t, {}) && u.IsMessage() && LinkMessage(t.state, transcript, u).child.Some?
    ensures Inv(RootMessageTrace(t, transcript, u, now, nowMs), {})
  {
    LinkMessageKeeps(t, transcript, u);
    var r := LinkMessage(t.state, transcript, u);
    PublishKeeps(WithState(t, r.state), r.child.value, now, nowMs, {r.child.value}, {});
  }

  /* Loops over the children. */

  lemma {:induction false} PublishAllKeeps(t: Trace, ids: seq<Bytes>, now: nat, nowMs: nat) returns (v: Trace)
    requires Inv(t, {})
    ensures Yields(t, v, PublishAll(t.state, ids, now, nowMs)) && Inv(v, {})
    ensures v.born == t.born
  {
    v := t;
    if ids != [] {
      var last := |ids| - 1;
      var before := PublishAllKeeps(t, ids[..last], now, nowMs);
      PublishKeeps(before, ids[last], now, nowMs, {}, {});
      v := Published(before, ids[last], now, nowMs);
      YieldsJoin(t, before, v, PublishAll(t.state, ids[..last], now, nowMs),
        Publish(before.state, ids[last], now, nowMs));
    }
  }

  lemma SilenceKeeps(t: Trace, id: Bytes)
    requires Inv(t, {})
    ensures Inv(WithState(t, Silence(t.state, id)), {id})
  {
    if id in t.state.children {
      var c := t.state.children[id];
      ConservedIn(t, id, {});
      SameKeeps(c, c.(quiet := true));
      ChildKeeps(t, id, c.(quiet := true), {}, {id});
    } else {
      InvMore(t, {}, {id});
    }
  }

  function SilencedTrace(t: Trace, id: Bytes, now: nat, nowMs: nat): Trace {
    Published(WithState(t, Silence(t.state, id)), id, now, nowMs)
  }

  lemma SilencedKeeps(t: Trace, id: Bytes, now: nat, nowMs: nat)
    requires Inv(t, {})
    ensures Inv(SilencedTrace(t, id, now, nowMs), {})
  {
    SilenceKeeps(t, id);
    PublishKeeps(WithState(t, Silence(t.state, id)), id, now, nowMs, {id}, {});
  }

  lemma {:induction false} SilenceAllKeeps(t: Trace, ids: seq<Bytes>, now: nat, nowMs: nat) returns (v: Trace)
    requires Inv(t, {})
    ensures Yields(t, v, SilenceAll(t.state, ids, now, nowMs)) && Inv(v, {})
    ensures v.born == t.born
  {
    v := t;
    if ids != [] {
      var last := |ids| - 1;
      var before := SilenceAllKeeps(t, ids[..last], now, nowMs);
      SilencedKeeps(before, ids[last], now, nowMs);
      v := SilencedTrace(before, ids[last], now, nowMs);
      YieldsJoin(t, before, v, SilenceAll(t.state, ids[..last], now, nowMs),
                 Publish(Silence(before.state, ids[last]), ids[last], now, nowMs));
    }
  }

  lemma RestartTracks(log: Log, born: nat, id: Bytes, c: Child, now: nat)
    requires Tracked(log, born, id, c, false)
    ensures Tracked(log, born, id, c.(lastTraffic := Some(now)), false)
  {
    var d := c.(lastTraffic := Some(now));
    assert BodyOf(d) == BodyOf(c);
  }

  lemma TurnEndedKeeps(t: Trace, now: nat)
    requires Inv(t, {})
    ensures Inv(WithState(t, ParentTurnEnded(t.state, now)), {})
  {
    var s := ParentTurnEnded(t.state, now);
    assert s.children.Keys == t.state.children.Keys;
    assert AllTracked(WithState(t, s), {}) by {
      forall x | x in s.children ensures Tracked(t.log, t.born[x], x, s.children[x], false) {
        assert Tracked(t.log, t.born[x], x, t.state.children[x], x in {});
        if t.state.children[x].Working() {
          RestartTracks(t.log, t.born[x], x, t.state.children[x], now);
        }
      }
    }
  }

  /* Whole steps and runs. */

  lemma RootKeeps(t: Trace, id: Bytes, u: Update, now: nat, nowMs: nat) returns (v: Trace)
    requires Inv(t, {}) && id !in t.state.children && id !in t.state.retired && !u.SubagentUpdate?
    ensures Yields(t, v, Effect(t.state, Routing(id, u, now, nowMs))) && Inv(v, {})
  {
    if u.IsMessage() && LinkMessage(t.state, id, u).child.Some? {
      RootMessageKeeps(t, id, u, now, nowMs);
      v := RootMessageTrace(t, id, u, now, nowMs);
    } else {
      var linked := if u.IsMessage() then LinkMessage(t.state, id, u).state else t.state;
      if u.IsMessage() {
        LinkMessageKeeps(t, id, u);
      }
      v := PublishAllKeeps(WithState(t, linked), DueIds(linked, linked.order, now), now, nowMs);
    }
  }

  lemma RouteKeeps(t: Trace, id: Bytes, u: Update, now: nat, nowMs: nat) returns (v: Trace)
    requires Inv(t, {})
    ensures Yields(t, v, Effect(t.state, Routing(id, u, now, nowMs))) && Inv(v, {})
  {
    if id in t.state.children {
      v := RouteChildKeeps(t, id, u, now, nowMs);
    } else if id in t.state.retired {
      v := t;
    } else if u.SubagentUpdate? {
      v := AnnounceKeeps(t, None, u, now, nowMs, {});
    } else {
      v := RootKeeps(t, id, u, now, nowMs);
    }
  }

  /** Every step keeps the books, the counts, the chains of snapshots and what they mirror. */
  lemma StepKeeps(t: Trace, step: Step)
    requires Inv(t, {})
    ensures Inv(Apply(t, step), {})
  {
    var v := t;
    if step.Routing? {
      v := RouteKeeps(t, step.id, step.update, step.now, step.nowMs);
    } else if step.Dueing? {
      v := PublishAllKeeps(t, DueIds(t.state, t.state.order, step.now), step.now, step.nowMs);
    } else if step.Quieting? {
      v := SilenceAllKeeps(t, SilentIds(t.state, t.state.order, step.now), step.now, step.nowMs);
    } else {
      TurnEndedKeeps(t, step.now);
      v := WithState(t, ParentTurnEnded(t.state, step.now));
    }
    YieldsExtended(t, v, Effect(t.state, step), {});
  }

  lemma {:induction false} RunKeeps(steps: seq<Step>)
    ensures Inv(Exec(START, steps), {})
  {
    if steps != [] {
      RunKeeps(steps[..|steps| - 1]);
      StepKeeps(Exec(START, steps[..|steps| - 1]), steps[|steps| - 1]);
    }
  }

  /**
   * In every reachable state the books agree and the caps hold; every child accounts for all its messages and
   * tool calls; its last snapshot shows it, up to streamed text still waiting; and revisions strictly increase.
   */
  lemma EveryRun(steps: seq<Step>)
    ensures
      var t := Exec(START, steps);
      && Books(t.state)
      && (forall id :: id in t.state.children ==>
            && Conserved(t.state.children[id])
            && Latest(t.log, id).Some?
            && Mirrors(Latest(t.log, id).value.body, t.state.children[id]))
      && (forall i, j :: 0 <= i < j < |t.log| && t.log[i].Some? && t.log[j].Some? ==>
            t.log[i].value.revision < t.log[j].value.revision)
  {
    RunKeeps(steps);
    var t := Exec(START, steps);
    forall id | id in t.state.children
      ensures Conserved(t.state.children[id]) && Mirrored(t.log, id, t.state.children[id])
    {
      assert Tracked(t.log, t.born[id], id, t.state.children[id], id in {});
    }
  }

  /** While a child is kept, an absolute position names the same entry in all its snapshots. */
  lemma SnapshotsEvolve(steps: seq<Step>, id: Bytes, i: nat, j: nat)
    requires id in Exec(START, steps).state.children && id in Exec(START, steps).born
    requires
      var t := Exec(START, steps);
      && t.born[id] <= i < j < |t.log|
      && t.log[i].Some? && t.log[j].Some? && t.log[i].value.id == id && t.log[j].value.id == id
    ensures
      var t := Exec(START, steps);
      && Evolves(t.log[i].value.body, t.log[j].value.body)
      && Evolves(t.log[j].value.body, BodyOf(t.state.children[id]))
  {
    RunKeeps(steps);
    var t := Exec(START, steps);
    assert Tracked(t.log, t.born[id], id, t.state.children[id], id in {});
  }
}
