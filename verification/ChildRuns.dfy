/** Over every run of the fold, a kept child and its latest snapshot tell everything that reached it. */
module ChildRuns {
  import opened Results
  import opened Texts
  import opened SubagentFold
  import opened SubagentLaws
  import opened SubagentRuns
  import opened ChildHistory
  import opened ChildFields

  /* What reaches a child. */

  /** An update of session `parent` that announces child `id`. */
  predicate Announces(u: Update, parent: Option<Bytes>, id: Bytes) {
    u.SubagentUpdate? && u.sessionId == Some(id) && id != [] && parent != Some(id)
  }

  /** The child a new message is linked to: in a child's own transcript that child, else its recipient or its sender. */
  function NewlyLinked(s: State, session: Bytes, u: Update): Option<Linked>
    requires u.SessionMessage?
  {
    if session in s.children then
      if u.sender == Some(session) then Some(Linked(session, Reply))
      else if u.recipient == Some(session) || u.recipient.None? then Some(Linked(session, Prompt))
      else None
    else if u.recipient.Some? && u.recipient.value in s.children then Some(Linked(u.recipient.value, Prompt))
    else if u.sender.Some? && u.sender.value in s.children then Some(Linked(u.sender.value, Reply))
    else None
  }

  /** The child a message of session `session` reaches: as it was linked before, or as it is linked now. */
  function LinkedTo(s: State, session: Bytes, u: Update): Option<Linked>
    requires u.IsMessage()
  {
    if u.messageId.None? then None
    else
      var key := LinkKey(session, u.messageId.value);
      if key in s.links then
        Some(if session in s.children then Linked(session, s.links[key].link) else s.links[key])
      else if u.SessionMessage? then NewlyLinked(s, session, u)
      else None
  }

  /** What an update of session `session` is to child `id`. */
  function UpdateDeed(s: State, session: Bytes, u: Update, id: Bytes): Option<Deed> {
    if session !in s.children && session in s.retired then None
    else if u.SubagentUpdate? then
      if Announces(u, if session in s.children then Some(session) else None, id) then Some(Told(u)) else None
    else if u.IsMessage() then
      var linked := LinkedTo(s, session, u);
      if linked.Some? && linked.value.child == id then Some(Said(linked.value.link, u)) else None
    else if session == id && id in s.children then Some(Inside(u))
    else None
  }

  function DeedOf(s: State, step: Step, id: Bytes): Option<Deed> {
    if step.Routing? then UpdateDeed(s, step.id, step.update, id) else None
  }

  function OneOrNone(d: Option<Deed>): Deeds {
    if d.Some? then [d.value] else []
  }

  /** Everything that reached child `id` since it was last announced as new. */
  function HistoryOf(steps: seq<Step>, id: Bytes): Deeds {
    if steps == [] then []
    else
      var init, last := steps[..|steps| - 1], steps[|steps| - 1];
      var s := Exec(START, init).state;
      (if id in s.children then HistoryOf(init, id) else []) + OneOrNone(DeedOf(s, last, id))
  }

  /* One step. */

  /** The two differ only in when they were published and heard of. */
  predicate SameSaid(c: Child, e: Child) {
    e == c.(parent := e.parent, lastPublish := e.lastPublish, dirty := e.dirty, lastTraffic := e.lastTraffic,
            quiet := e.quiet)
  }

  lemma SameTells(c: Child, e: Child, ds: Deeds)
    requires SameSaid(c, e) && Tells(c, ds)
    ensures Tells(e, ds)
  {
  }

  /** `e` is `c` after deed `d`, or the same child. */
  ghost predicate Follows(c: Child, e: Child, d: Option<Deed>) {
    exists m: Child, now: nat :: SameSaid(c, m) && Gives(m, e, d, now)
  }

  predicate Gives(m: Child, e: Child, d: Option<Deed>, now: nat) {
    if d.None? then SameSaid(m, e) else Fits(d.value) && SameSaid(After(m, d.value, now), e)
  }

  lemma FollowsTells(c: Child, e: Child, d: Option<Deed>, ds: Deeds)
    requires Follows(c, e, d) && Tells(c, ds)
    ensures Tells(e, ds + OneOrNone(d))
  {
    var m: Child, now: nat :| SameSaid(c, m) && Gives(m, e, d, now);
    SameTells(c, m, ds);
    if d.Some? {
      TellsNext(m, ds, d.value, now);
      SameTells(After(m, d.value, now), e, ds + [d.value]);
    } else {
      SameTells(m, e, ds);
      assert ds + [] == ds;
    }
  }

  lemma Untouched(c: Child, e: Child)
    requires SameSaid(c, e)
    ensures Follows(c, e, None)
  {
    assert Gives(c, e, None, 0);
  }

  /** No child came or went, and each says the same. */
  ghost predicate Undisturbed(s: State, t: State) {
    && s.children.Keys == t.children.Keys
    && forall id :: id in s.children ==> SameSaid(s.children[id], t.children[id])
  }

  lemma PublishUndisturbed(s: State, id: Bytes, now: nat, nowMs: nat)
    ensures Undisturbed(s, Publish(s, id, now, nowMs).state)
  {
  }

  lemma UndisturbedJoin(s: State, t: State, v: State)
    requires Undisturbed(s, t) && Undisturbed(t, v)
    ensures Undisturbed(s, v)
  {
    forall id | id in s.children ensures SameSaid(s.children[id], v.children[id]) {
      assert SameSaid(s.children[id], t.children[id]) && SameSaid(t.children[id], v.children[id]);
    }
  }

  lemma {:induction false} PublishAllUndisturbed(s: State, ids: seq<Bytes>, now: nat, nowMs: nat)
    ensures Undisturbed(s, PublishAll(s, ids, now, nowMs).state)
  {
    if ids != [] {
      var last := |ids| - 1;
      var before := PublishAll(s, ids[..last], now, nowMs).state;
      PublishAllUndisturbed(s, ids[..last], now, nowMs);
      PublishUndisturbed(before, ids[last], now, nowMs);
      UndisturbedJoin(s, before, Publish(before, ids[last], now, nowMs).state);
    }
  }

  lemma {:induction false} SilenceAllUndisturbed(s: State, ids: seq<Bytes>, now: nat, nowMs: nat)
    ensures Undisturbed(s, SilenceAll(s, ids, now, nowMs).state)
  {
    if ids != [] {
      var last := |ids| - 1;
      var before := SilenceAll(s, ids[..last], now, nowMs).state;
      var silenced := Silence(before, ids[last]);
      SilenceAllUndisturbed(s, ids[..last], now, nowMs);
      assert Undisturbed(before, silenced);
      PublishUndisturbed(silenced, ids[last], now, nowMs);
      UndisturbedJoin(s, before, silenced);
      UndisturbedJoin(s, silenced, Publish(silenced, ids[last], now, nowMs).state);
    }
  }

  /** The child before the step, or a new one. */
  function Earlier(s: State, id: Bytes): Child {
    if id in s.children then s.children[id] else NewChild(None)
  }

  /** Every child left by the step follows from what it was by the deed of the step. */
  ghost predicate StepTells(s: State, t: State, step: Step) {
    forall id :: id in t.children ==> Follows(Earlier(s, id), t.children[id], DeedOf(s, step, id))
  }

  lemma UndisturbedTells(s: State, t: State, step: Step)
    requires Undisturbed(s, t) && forall id :: id in s.children ==> DeedOf(s, step, id) == None
    ensures StepTells(s, t, step)
  {
    forall id | id in t.children ensures Follows(Earlier(s, id), t.children[id], DeedOf(s, step, id)) {
      Untouched(s.children[id], t.children[id]);
    }
  }

  lemma TimerTells(s: State, step: Step)
    requires !step.Routing?
    ensures StepTells(s, Effect(s, step).state, step)
  {
    if step.Dueing? {
      PublishAllUndisturbed(s, DueIds(s, s.order, step.now), step.now, step.nowMs);
    } else if step.Quieting? {
      SilenceAllUndisturbed(s, SilentIds(s, s.order, step.now), step.now, step.nowMs);
    } else {
      assert Undisturbed(s, ParentTurnEnded(s, step.now));
    }
    UndisturbedTells(s, Effect(s, step).state, step);
  }

  /** Deed `d` reached child `target`, and the other children say the same or are gone. */
  ghost predicate Reached(s: State, t: State, target: Bytes, d: Deed) {
    && (forall id :: id in t.children && id != target ==>
      id in s.children && SameSaid(s.children[id], t.children[id]))
    && (target in t.children ==> Follows(Earlier(s, target), t.children[target], Some(d)))
  }

  lemma ReachedTells(s: State, t: State, step: Step, target: Bytes, d: Deed)
    requires Reached(s, t, target, d) && DeedOf(s, step, target) == Some(d)
    requires forall id :: id in t.children && id != target ==> DeedOf(s, step, id) == None
    ensures StepTells(s, t, step)
  {
    forall id | id in t.children ensures Follows(Earlier(s, id), t.children[id], DeedOf(s, step, id)) {
      if id != target {
        Untouched(s.children[id], t.children[id]);
      }
    }
  }

  lemma FollowsAround(b: Child, c: Child, e: Child, f: Child, d: Option<Deed>)
    requires SameSaid(b, c) && Follows(c, e, d) && SameSaid(e, f)
    ensures Follows(b, f, d)
  {
    var m: Child, now: nat :| SameSaid(c, m) && Gives(m, e, d, now);
    assert SameSaid(b, m) && Gives(m, f, d, now);
  }

  /** What leaves the children undisturbed may come before and after. */
  lemma ReachedAround(r: State, s: State, t: State, v: State, target: Bytes, d: Deed)
    requires Undisturbed(r, s) && Reached(s, t, target, d) && Undisturbed(t, v)
    ensures Reached(r, v, target, d)
  {
    forall id | id in v.children && id != target ensures id in r.children && SameSaid(r.children[id], v.children[id]) {
      assert SameSaid(s.children[id], t.children[id]) && SameSaid(t.children[id], v.children[id]);
    }
    if target in v.children {
      FollowsAround(Earlier(r, target), Earlier(s, target), t.children[target], v.children[target], Some(d));
    }
  }

  lemma SameUndisturbed(s: State)
    ensures Undisturbed(s, s)
  {
  }

  /** One child becomes what the deed makes of it. */
  lemma ChildReached(s: State, t: State, id: Bytes, d: Deed, now: nat)
    requires Fits(d) && id in s.children && t.children == s.children[id := After(s.children[id], d, now)]
    ensures Reached(s, t, id, d)
  {
    assert Gives(s.children[id], t.children[id], Some(d), now);
  }

  lemma NewChildReached(s: State, t: State, id: Bytes, parent: Option<Bytes>, d: Deed, now: nat)
    requires Fits(d) && id !in s.children
    requires t.children == Insert(s, id, parent).children[id := After(NewChild(parent), d, now)]
    ensures Reached(s, t, id, d)
  {
    InsertedChildren(s, id, parent);
    assert Gives(NewChild(parent), t.children[id], Some(d), now);
    assert SameSaid(NewChild(None), NewChild(parent));
  }

  lemma AnnounceReaches(s: State, parent: Option<Bytes>, u: Update, id: Bytes, now: nat, nowMs: nat)
    requires Announces(u, parent, id)
    ensures Reached(s, Announce(s, parent, u, now, nowMs).state, id, Told(u))
  {
    var known := if id in s.children then s else Insert(s, id, parent);
    InsertedChildren(s, id, parent);
    var told := known.(children := known.children[id := Announced(known.children[id], u, now)]);
    if id in s.children {
      ChildReached(s, told, id, Told(u), now);
    } else {
      NewChildReached(s, told, id, parent, Told(u), now);
    }
    SameUndisturbed(s);
    PublishUndisturbed(told, id, now, nowMs);
    ReachedAround(s, s, told, Publish(told, id, now, nowMs).state, id, Told(u));
  }

  lemma TouchUndisturbed(s: State, id: Bytes, now: nat)
    requires id in s.children
    ensures Undisturbed(s, Touch(s, id, now))
  {
  }

  /** An update from inside the child. */
  lemma AbsorbReaches(s: State, id: Bytes, u: Update, now: nat)
    requires id in s.children && !u.IsMessage()
    ensures Reached(s, Absorb(s, id, u, now).state, id, Inside(u))
  {
    ChildReached(s, Absorb(s, id, u, now).state, id, Inside(u), now);
  }

  lemma AbsorbMessageReaches(s: State, id: Bytes, u: Update, now: nat)
    requires id in s.children && u.IsMessage()
    ensures
      var t, linked := Absorb(s, id, u, now).state, LinkedTo(s, id, u);
      if linked.None? then t.children == s.children
      else linked.value.child == id && Reached(s, t, id, Said(linked.value.link, u))
  {
    var linked := LinkedTo(s, id, u);
    if linked.Some? {
      ChildReached(s, Absorb(s, id, u, now).state, id, Said(linked.value.link, u), now);
    }
  }

  lemma LinkMessageReaches(s: State, session: Bytes, u: Update)
    requires session !in s.children && u.IsMessage()
    ensures
      var r, linked := LinkMessage(s, session, u), LinkedTo(s, session, u);
      if linked.Some? && linked.value.child in s.children then
        r.child == Some(linked.value.child) && Reached(s, r.state, linked.value.child, Said(linked.value.link, u))
      else r.child.None? && r.state.children == s.children
  {
    var linked := LinkedTo(s, session, u);
    if linked.Some? && linked.value.child in s.children {
      ChildReached(s, LinkMessage(s, session, u).state, linked.value.child, Said(linked.value.link, u), 0);
    }
  }

  lemma PublishIfUndisturbed(s: State, wanted: bool, id: Bytes, now: nat, nowMs: nat)
    ensures Undisturbed(s, if wanted then Publish(s, id, now, nowMs).state else s)
  {
    if wanted {
      PublishUndisturbed(s, id, now, nowMs);
    }
  }

  lemma RouteAnnounceTells(s: State, step: Step)
    requires step.Routing? && step.id in s.children && step.update.SubagentUpdate?
    ensures StepTells(s, Effect(s, step).state, step)
  {
    var id, u, now, nowMs := step.id, step.update, step.now, step.nowMs;
    var touched := Touch(s, id, now);
    var told := Announce(touched, Some(id), u, now, nowMs).state;
    var t := if s.children[id].quiet then Publish(told, id, now, nowMs).state else told;
    TouchUndisturbed(s, id, now);
    PublishIfUndisturbed(told, s.children[id].quiet, id, now, nowMs);
    if u.sessionId.Some? && Announces(u, Some(id), u.sessionId.value) {
      AnnounceReaches(touched, Some(id), u, u.sessionId.value, now, nowMs);
      ReachedAround(s, touched, told, t, u.sessionId.value, Told(u));
      ReachedTells(s, t, step, u.sessionId.value, Told(u));
    } else {
      UndisturbedJoin(s, touched, t);
      UndisturbedTells(s, t, step);
    }
  }

  lemma TouchedLinks(s: State, id: Bytes, u: Update, now: nat)
    requires id in s.children && u.IsMessage()
    ensures LinkedTo(Touch(s, id, now), id, u) == LinkedTo(s, id, u)
  {
  }

  lemma RouteInsideTells(s: State, step: Step)
    requires step.Routing? && step.id in s.children && !step.update.SubagentUpdate?
    ensures StepTells(s, Effect(s, step).state, step)
  {
    var id, u, now, nowMs := step.id, step.update, step.now, step.nowMs;
    var touched := Touch(s, id, now);
    var absorbed := Absorb(touched, id, u, now);
    var wanted := absorbed.republish || s.children[id].quiet;
    var t := if wanted then Publish(absorbed.state, id, now, nowMs).state else absorbed.state;
    TouchUndisturbed(s, id, now);
    PublishIfUndisturbed(absorbed.state, wanted, id, now, nowMs);
    if !u.IsMessage() {
      AbsorbReaches(touched, id, u, now);
      ReachedAround(s, touched, absorbed.state, t, id, Inside(u));
      ReachedTells(s, t, step, id, Inside(u));
    } else {
      TouchedLinks(s, id, u, now);
      AbsorbMessageReaches(touched, id, u, now);
      var linked := LinkedTo(s, id, u);
      if linked.Some? {
        ReachedAround(s, touched, absorbed.state, t, id, Said(linked.value.link, u));
        ReachedTells(s, t, step, id, Said(linked.value.link, u));
      } else {
        assert Undisturbed(touched, absorbed.state);
        UndisturbedJoin(s, touched, absorbed.state);
        UndisturbedJoin(s, absorbed.state, t);
        UndisturbedTells(s, t, step);
      }
    }
  }

  lemma RootAnnounceTells(s: State, step: Step)
    requires step.Routing? && step.id !in s.children && step.id !in s.retired && step.update.SubagentUpdate?
    ensures StepTells(s, Effect(s, step).state, step)
  {
    var u := step.update;
    var t := Announce(s, None, u, step.now, step.nowMs).state;
    if u.sessionId.Some? && Announces(u, None, u.sessionId.value) {
      AnnounceReaches(s, None, u, u.sessionId.value, step.now, step.nowMs);
      ReachedTells(s, t, step, u.sessionId.value, Told(u));
    } else {
      SameUndisturbed(s);
      UndisturbedTells(s, t, step);
    }
  }

  lemma RootMessageTells(s: State, step: Step)
    requires step.Routing? && step.id !in s.children && step.id !in s.retired && step.update.IsMessage()
    ensures StepTells(s, Effect(s, step).state, step)
  {
    var u, now, nowMs := step.update, step.now, step.nowMs;
    var linked, r := LinkedTo(s, step.id, u), LinkMessage(s, step.id, u);
    LinkMessageReaches(s, step.id, u);
    if r.child.Some? {
      var id := linked.value.child;
      var t := Publish(r.state, id, now, nowMs).state;
      SameUndisturbed(s);
      PublishUndisturbed(r.state, id, now, nowMs);
      ReachedAround(s, s, r.state, t, id, Said(linked.value.link, u));
      ReachedTells(s, t, step, id, Said(linked.value.link, u));
    } else {
      var t := Due(r.state, now, nowMs).state;
      PublishAllUndisturbed(r.state, DueIds(r.state, r.state.order, now), now, nowMs);
      assert Undisturbed(s, r.state);
      UndisturbedJoin(s, r.state, t);
      forall id | id in t.children ensures Follows(Earlier(s, id), t.children[id], DeedOf(s, step, id)) {
        Untouched(s.children[id], t.children[id]);
      }
    }
  }

  lemma RootOtherTells(s: State, step: Step)
    requires step.Routing? && step.id !in s.children && !step.update.SubagentUpdate? && !step.update.IsMessage()
    ensures StepTells(s, Effect(s, step).state, step)
  {
    SameUndisturbed(s);
    PublishAllUndisturbed(s, DueIds(s, s.order, step.now), step.now, step.nowMs);
    UndisturbedTells(s, Effect(s, step).state, step);
  }

  /** Every child left by a step is what the step's deed makes of it. */
  lemma EveryStepTells(s: State, step: Step)
    ensures StepTells(s, Effect(s, step).state, step)
  {
    if !step.Routing? {
      TimerTells(s, step);
    } else if step.id in s.children {
      if step.update.SubagentUpdate? {
        RouteAnnounceTells(s, step);
      } else {
        RouteInsideTells(s, step);
      }
    } else if step.id in s.retired {
      SameUndisturbed(s);
      UndisturbedTells(s, s, step);
    } else if step.update.SubagentUpdate? {
      RootAnnounceTells(s, step);
    } else if step.update.IsMessage() {
      RootMessageTells(s, step);
    } else {
      RootOtherTells(s, step);
    }
  }

  /** In every run, a kept child tells exactly what reached it since it was announced, as it was last said. */
  lemma {:induction false} RunTells(steps: seq<Step>, id: Bytes)
    requires id in Exec(START, steps).state.children
    ensures Tells(Exec(START, steps).state.children[id], HistoryOf(steps, id))
  {
    var init, last := steps[..|steps| - 1], steps[|steps| - 1];
    var s := Exec(START, init).state;
    EveryStepTells(s, last);
    var ds := if id in s.children then HistoryOf(init, id) else [];
    if id in s.children {
      RunTells(init, id);
    } else {
      TellsNew(None);
    }
    FollowsTells(Earlier(s, id), Exec(START, steps).state.children[id], DeedOf(s, last, id), ds);
  }

  /* Links. */

  /** The step is the message that made the link. */
  ghost predicate LinkedAt(s: State, step: Step, key: LinkKey, linked: Linked) {
    && step.Routing? && step.id == key.transcript && step.update.SessionMessage?
    && step.update.messageId == Some(key.messageId)
    && NewlyLinked(s, step.id, step.update) == Some(linked)
  }

  ghost predicate LinkMade(steps: seq<Step>, key: LinkKey, linked: Linked) {
    exists k: nat :: k < |steps| && LinkedAt(Exec(START, steps[..k]).state, steps[k], key, linked)
  }

  /** Every link of `t` was there before, or is made by the step. */
  ghost predicate LinksFrom(s: State, t: State, step: Step) {
    forall key :: key in t.links ==>
      (key in s.links && t.links[key] == s.links[key]) || LinkedAt(s, step, key, t.links[key])
  }

  lemma {:induction false} PublishAllLinks(s: State, ids: seq<Bytes>, now: nat, nowMs: nat)
    ensures PublishAll(s, ids, now, nowMs).state.links == s.links
  {
    if ids != [] {
      PublishAllLinks(s, ids[..|ids| - 1], now, nowMs);
    }
  }

  lemma {:induction false} SilenceAllLinks(s: State, ids: seq<Bytes>, now: nat, nowMs: nat)
    ensures SilenceAll(s, ids, now, nowMs).state.links == s.links
  {
    if ids != [] {
      SilenceAllLinks(s, ids[..|ids| - 1], now, nowMs);
    }
  }

  lemma InsertLinks(s: State, id: Bytes, parent: Option<Bytes>)
    ensures forall key :: key in Insert(s, id, parent).links ==>
      key in s.links && Insert(s, id, parent).links[key] == s.links[key]
  {
  }

  lemma AnnounceLinks(s: State, parent: Option<Bytes>, u: Update, now: nat, nowMs: nat, key: LinkKey)
    requires u.SubagentUpdate? && key in Announce(s, parent, u, now, nowMs).state.links
    ensures key in s.links && Announce(s, parent, u, now, nowMs).state.links[key] == s.links[key]
  {
    if u.sessionId.Some? {
      InsertLinks(s, u.sessionId.value, parent);
    }
  }

  lemma RouteLinks(s: State, step: Step)
    requires step.Routing? && (step.id in s.children || step.id !in s.retired)
    ensures LinksFrom(s, Effect(s, step).state, step)
  {
    var id, u, now, nowMs := step.id, step.update, step.now, step.nowMs;
    var t := Effect(s, step).state;
    forall key | key in t.links
      ensures (key in s.links && t.links[key] == s.links[key]) || LinkedAt(s, step, key, t.links[key])
    {
      if u.SubagentUpdate? {
        if id in s.children {
          AnnounceLinks(Touch(s, id, now), Some(id), u, now, nowMs, key);
        } else {
          AnnounceLinks(s, None, u, now, nowMs, key);
        }
      } else if id in s.children {
        InsideLinks(s, id, u, now, key);
      } else {
        RootLinks(s, step, key);
      }
    }
  }

  lemma InsideLinks(s: State, id: Bytes, u: Update, now: nat, key: LinkKey)
    requires id in s.children && !u.SubagentUpdate?
    ensures
      var links := Absorb(Touch(s, id, now), id, u, now).state.links;
      key in links && !(key in s.links && links[key] == s.links[key]) ==>
        && u.SessionMessage? && u.messageId.Some? && key == LinkKey(id, u.messageId.value)
        && NewlyLinked(s, id, u) == Some(links[key])
  {
  }

  lemma RootLinks(s: State, step: Step, key: LinkKey)
    requires step.Routing? && step.id !in s.children && step.id !in s.retired && !step.update.SubagentUpdate?
    requires key in Effect(s, step).state.links
    ensures
      var t := Effect(s, step).state;
      (key in s.links && t.links[key] == s.links[key]) || LinkedAt(s, step, key, t.links[key])
  {
    var linked := if step.update.IsMessage() then LinkMessage(s, step.id, step.update).state else s;
    PublishAllLinks(linked, DueIds(linked, linked.order, step.now), step.now, step.nowMs);
  }

  lemma StepLinks(s: State, step: Step)
    ensures LinksFrom(s, Effect(s, step).state, step)
  {
    if step.Routing? {
      if step.id in s.children || step.id !in s.retired {
        RouteLinks(s, step);
      }
    } else if step.Dueing? {
      PublishAllLinks(s, DueIds(s, s.order, step.now), step.now, step.nowMs);
    } else if step.Quieting? {
      SilenceAllLinks(s, SilentIds(s, s.order, step.now), step.now, step.nowMs);
    }
  }

  lemma LinkStays(steps: seq<Step>, key: LinkKey, linked: Linked)
    requires steps != [] && LinkMade(steps[..|steps| - 1], key, linked)
    ensures LinkMade(steps, key, linked)
  {
    var init := steps[..|steps| - 1];
    var k: nat :| k < |init| && LinkedAt(Exec(START, init[..k]).state, init[k], key, linked);
    assert init[..k] == steps[..k] && init[k] == steps[k];
  }

  /** Every link was made by a message to its child, as prompt, or from it, as reply. */
  lemma {:induction false} LinksTold(steps: seq<Step>, key: LinkKey)
    requires key in Exec(START, steps).state.links
    ensures LinkMade(steps, key, Exec(START, steps).state.links[key])
  {
    var init, last := steps[..|steps| - 1], steps[|steps| - 1];
    var s := Exec(START, init).state;
    var linked := Exec(START, steps).state.links[key];
    StepLinks(s, last);
    if key in s.links && linked == s.links[key] {
      LinksTold(init, key);
      LinkStays(steps, key, linked);
    } else {
      assert LinkedAt(Exec(START, steps[..|steps| - 1]).state, steps[|steps| - 1], key, linked);
    }
  }

  /* Snapshots. */

  /** Every text of the update is UTF-8. */
  predicate Legible(u: Update) {
    && (u.AgentMessageChunk? && u.text.Some? ==> ValidUtf8(u.text.value))
    && (u.SessionMessageChunk? && u.text.Some? ==> ValidUtf8(u.text.value))
    && (u.SessionMessage? && u.content.Some? ==> ValidUtf8(u.content.value))
  }

  predicate AllLegible(steps: seq<Step>) {
    forall k :: 0 <= k < |steps| && steps[k].Routing? ==> Legible(steps[k].update)
  }

  lemma {:induction false} HistoryLegible(steps: seq<Step>, id: Bytes)
    requires AllLegible(steps)
    ensures forall k :: 0 <= k < |HistoryOf(steps, id)| ==> Legible(HistoryOf(steps, id)[k].update)
  {
    if steps != [] {
      HistoryLegible(steps[..|steps| - 1], id);
    }
  }

  predicate AllValid(chunks: seq<Bytes>) {
    forall c :: c in chunks ==> ValidUtf8(c)
  }

  lemma {:induction false} ChunksValid(ds: Deeds, o: nat)
    requires o < |ds| && Streams(ds[o]) && forall k :: 0 <= k < |ds| ==> Legible(ds[k].update)
    ensures AllValid(ChunksOf(ds, o))
    decreases |ds|
  {
    if o < |ds| - 1 {
      ChunksValid(ds[..|ds| - 1], o);
    }
  }

  lemma {:induction false} PiecesValid(ds: Deeds, link: Link)
    requires forall k :: 0 <= k < |ds| ==> Legible(ds[k].update)
    ensures AllValid(Pieces(ds, link))
  {
    if ds != [] {
      PiecesValid(ds[..|ds| - 1], link);
    }
  }

  /** `e` shows the entry that deed `o` opened; only the newest message may lag behind its chunks. */
  ghost predicate EntryShown(ds: Deeds, o: nat, e: Entry, newest: bool)
    requires o < |ds|
  {
    if StartsTool(ds[o]) then
      var u := ds[o].update;
      e == ToolEntry(u.toolCallId.value, ShortLabel(TitleOf(ds, o)).value, u.kind, StatusOf(ds, o))
    else
      && Streams(ds[o]) && e.MessageEntry?
      && var whole := Clip(Concat(ChunksOf(ds, o)), ACTIVITY_TEXT_BYTES).value;
         e.text <= whole && (newest || e.text == whole)
  }

  ghost predicate EntriesShown(ds: Deeds, entries: seq<Entry>) {
    var os := Newest(Openings(ds));
    |entries| == |os| && forall i :: 0 <= i < |os| ==> os[i] < |ds| && EntryShown(ds, os[i], entries[i], i == |os| - 1)
  }

  /** What a snapshot says of labels, state and counts. */
  ghost predicate LabelsShown(ds: Deeds, b: Body) {
    var patch := LastPatch(ds);
    && b.title == ValueOf(Shortened(NameOf(ds, Title))) && b.description == ValueOf(Shortened(NameOf(ds, Description)))
    && b.state == StateOf(ds)
    && b.stopReason == (if patch.Some? then patch.value.stopReason else None)
    && b.error == (if patch.Some? then ValueOf(Shortened(patch.value.error)) else None)
    && b.cancellable == (CancelOf(ds) && (StateOf(ds) == Some(Running) || StateOf(ds) == Some(RequiresAction)))
    && b.model == ValueOf(ModelOf(ds)) && b.usage == UsageOf(ds)
    && |Openings(ds)| >= Started(ds) && |Openings(ds)| >= |b.activity|
    && b.toolCalls == Saturated(Started(ds)) && b.messages == Saturated(|Openings(ds)| - Started(ds))
    && b.omitted == Saturated(|Openings(ds)| - |b.activity|)
  }

  function Clipped(pieces: seq<Bytes>): Bytes {
    Clip(Concat(pieces), MESSAGE_BYTES).value
  }

  /** The prompt, and as result the reply, else the last message of an idle child, which may lag. */
  ghost predicate TextsShown(ds: Deeds, b: Body) {
    var prompt, reply := Clipped(Pieces(ds, Prompt)), Clipped(Pieces(ds, Reply));
    && b.prompt == (if prompt == [] then None else Some(prompt))
    && (reply != [] ==> b.result == Some(reply))
    && (reply == [] && b.result.Some? ==> StateOf(ds) == Some(Idle) && b.result.value <= Clipped(LastChunks(ds)))
  }

  lemma EntryShows(ds: Deeds, o: nat, a: Activity)
    requires o < |ds| && EntryTold(ds, o, a) && forall k :: 0 <= k < |ds| ==> Legible(ds[k].update)
    ensures EntryShown(ds, o, Shown(a), false)
  {
    if !StartsTool(ds[o]) {
      ChunksValid(ds, o);
      ChunkingForgotten(ChunksOf(ds, o), ACTIVITY_TEXT_BYTES);
    }
  }

  /** The entries a snapshot shows are the child's, but for newest text still waiting. */
  lemma MirroredEntry(c: Child, b: Body, i: nat)
    requires Mirrors(b, c) && i < |c.activity|
    ensures |b.activity| == |c.activity|
    ensures i < |c.activity| - 1 ==> b.activity[i] == Shown(c.activity[i])
    ensures b.activity[i] == Shown(c.activity[i])
      || (b.activity[i].MessageEntry? && c.activity[i].Message? && b.activity[i].text <= c.activity[i].text.value)
  {
    var now := BodyOf(c).activity;
    assert now[i] == Shown(c.activity[i]);
    if c.dirty && i < |c.activity| - 1 {
      assert b.activity[..|now| - 1][i] == now[..|now| - 1][i];
    }
  }

  lemma LatestEntry(ds: Deeds, o: nat, c: Child, b: Body, i: nat)
    requires i < |c.activity| && o < |ds| && EntryTold(ds, o, c.activity[i]) && Mirrors(b, c)
    requires forall k :: 0 <= k < |ds| ==> Legible(ds[k].update)
    ensures |b.activity| == |c.activity| && EntryShown(ds, o, b.activity[i], i == |c.activity| - 1)
  {
    MirroredEntry(c, b, i);
    EntryShows(ds, o, c.activity[i]);
  }

  lemma MirroredLength(c: Child, b: Body)
    requires Mirrors(b, c)
    ensures |b.activity| == |c.activity|
  {
    assert |BodyOf(c).activity| == |c.activity|;
  }

  lemma LatestEntries(ds: Deeds, c: Child, b: Body)
    requires EntriesTold(c.activity, ds) && Mirrors(b, c)
    requires forall k :: 0 <= k < |ds| ==> Legible(ds[k].update)
    ensures EntriesShown(ds, b.activity)
  {
    var os := Newest(Openings(ds));
    MirroredLength(c, b);
    forall i | 0 <= i < |os| ensures EntryShown(ds, os[i], b.activity[i], i == |os| - 1) {
      assert EntryTold(ds, os[i], c.activity[i]);
      LatestEntry(ds, os[i], c, b, i);
    }
  }

  lemma LatestLabels(ds: Deeds, c: Child, b: Body)
    requires Tells(c, ds) && Mirrors(b, c)
    ensures LabelsShown(ds, b)
  {
    assert |BodyOf(c).activity| == |c.activity|;
  }

  lemma {:induction false} LastChunksValid(ds: Deeds)
    requires forall k :: 0 <= k < |ds| ==> Legible(ds[k].update)
    ensures AllValid(LastChunks(ds))
  {
    if ds != [] {
      LastChunksValid(ds[..|ds| - 1]);
    }
  }

  lemma LatestTexts(ds: Deeds, c: Child, b: Body)
    requires Tells(c, ds) && Mirrors(b, c) && forall k :: 0 <= k < |ds| ==> Legible(ds[k].update)
    ensures TextsShown(ds, b)
  {
    PiecesValid(ds, Prompt);
    PiecesValid(ds, Reply);
    LastChunksValid(ds);
    ChunkingForgotten(Pieces(ds, Prompt), MESSAGE_BYTES);
    ChunkingForgotten(Pieces(ds, Reply), MESSAGE_BYTES);
    ChunkingForgotten(LastChunks(ds), MESSAGE_BYTES);
  }

  /**
   * In every run, the latest snapshot of a kept child shows its newest entries: each tool with the title and status
   * last named, each message clipped (the newest may lag); and its labels, state, counts and texts as last said.
   */
  lemma LatestTells(steps: seq<Step>, id: Bytes)
    requires id in Exec(START, steps).state.children && AllLegible(steps)
    ensures
      var t, ds := Exec(START, steps), HistoryOf(steps, id);
      && Latest(t.log, id).Some?
      && EntriesShown(ds, Latest(t.log, id).value.body.activity)
      && LabelsShown(ds, Latest(t.log, id).value.body)
      && TextsShown(ds, Latest(t.log, id).value.body)
  {
    EveryRun(steps);
    RunTells(steps, id);
    HistoryLegible(steps, id);
    var t, ds := Exec(START, steps), HistoryOf(steps, id);
    var b := Latest(t.log, id).value.body;
    LatestEntries(ds, t.state.children[id], b);
    LatestLabels(ds, t.state.children[id], b);
    LatestTexts(ds, t.state.children[id], b);
  }
}
