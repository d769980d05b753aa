/** Whose child a child is, when it was last heard of, and whether it still reports, told by the steps of a run. */
module ChildClock {
  import opened Results
  import opened Texts
  import opened SubagentFold
  import opened SubagentLaws
  import opened SubagentRuns
  import opened SubagentTimers
  import opened ChildFields
  import opened ChildRuns

  /* One step. */

  datatype Clock = Clock(parent: Option<Bytes>, heard: Option<nat>, quiet: bool)

  function ClockOf(c: Child): Clock {
    Clock(c.parent, c.lastTraffic, c.quiet)
  }

  /** The step is traffic of the child itself, or an announcement of it. */
  predicate Hears(s: State, step: Step, id: Bytes) {
    && step.Routing?
    && ((step.id == id && id in s.children)
        || ((step.id in s.children || step.id !in s.retired)
            && Announces(step.update, if step.id in s.children then Some(step.id) else None, id)))
  }

  /** The session that announces a new child; the root session has no name here. */
  function Announcer(s: State, step: Step): Option<Bytes> {
    if step.Routing? && step.id in s.children then Some(step.id) else None
  }

  /** What the step makes of the clock of a child it keeps. */
  predicate Ticks(s: State, step: Step, id: Bytes, after: Clock) {
    && after.parent == (if id in s.children then s.children[id].parent else Announcer(s, step))
    && (if Hears(s, step, id) then after.heard == Some(step.now) && !after.quiet
        else
          && id in s.children
          && after.heard ==
             (if step.TurnEnding? && s.children[id].Working() then Some(step.now) else s.children[id].lastTraffic)
          && (after.quiet <==> s.children[id].quiet || (step.Quieting? && Silent(s.children[id], step.now))))
  }

  /** The children and their clocks are as they were. */
  ghost predicate SameClocks(s: State, t: State) {
    && s.children.Keys == t.children.Keys
    && forall id :: id in s.children ==> ClockOf(t.children[id]) == ClockOf(s.children[id])
  }

  lemma SameClocksJoin(s: State, t: State, v: State)
    requires SameClocks(s, t) && SameClocks(t, v)
    ensures SameClocks(s, v)
  {
  }

  lemma PublishClocks(s: State, id: Bytes, now: nat, nowMs: nat)
    ensures SameClocks(s, Publish(s, id, now, nowMs).state)
  {
  }

  lemma {:induction false} PublishAllClocks(s: State, ids: seq<Bytes>, now: nat, nowMs: nat)
    ensures SameClocks(s, PublishAll(s, ids, now, nowMs).state)
  {
    if ids != [] {
      var before := PublishAll(s, ids[..|ids| - 1], now, nowMs).state;
      PublishAllClocks(s, ids[..|ids| - 1], now, nowMs);
      PublishClocks(before, ids[|ids| - 1], now, nowMs);
      SameClocksJoin(s, before, Publish(before, ids[|ids| - 1], now, nowMs).state);
    }
  }

  lemma AbsorbClocks(s: State, id: Bytes, u: Update, now: nat)
    requires id in s.children
    ensures SameClocks(s, Absorb(s, id, u, now).state)
  {
    if !u.IsMessage() {
      FoldLeaves(s.children[id], u, now);
    }
  }

  lemma LinkClocks(s: State, session: Bytes, u: Update)
    requires u.IsMessage()
    ensures SameClocks(s, LinkMessage(s, session, u).state)
  {
  }

  /** Child `target` was just heard of; the others are as they were, or gone. */
  ghost predicate Heard(s: State, t: State, target: Bytes, parent: Option<Bytes>, now: nat) {
    && (forall id :: id in t.children && id != target ==>
          id in s.children && ClockOf(t.children[id]) == ClockOf(s.children[id]))
    && (target in t.children ==>
          ClockOf(t.children[target]) ==
          Clock(if target in s.children then s.children[target].parent else parent, Some(now), false))
  }

  lemma HeardThen(s: State, t: State, v: State, target: Bytes, parent: Option<Bytes>, now: nat)
    requires Heard(s, t, target, parent, now) && SameClocks(t, v)
    ensures Heard(s, v, target, parent, now)
  {
  }

  lemma AnnouncedClock(c: Child, u: Update, now: nat)
    requires u.SubagentUpdate?
    ensures ClockOf(Announced(c, u, now)) == Clock(c.parent, Some(now), false)
  {
  }

  lemma AnnounceClocks(s: State, parent: Option<Bytes>, u: Update, id: Bytes, now: nat, nowMs: nat)
    requires Announces(u, parent, id)
    ensures Heard(s, Announce(s, parent, u, now, nowMs).state, id, parent, now)
  {
    InsertedChildren(s, id, parent);
    var known := if id in s.children then s else Insert(s, id, parent);
    var told := known.(children := known.children[id := Announced(known.children[id], u, now)]);
    AnnouncedClock(known.children[id], u, now);
    assert Heard(s, told, id, parent, now);
    PublishClocks(told, id, now, nowMs);
    HeardThen(s, told, Publish(told, id, now, nowMs).state, id, parent, now);
  }

  lemma NotAnnounced(s: State, parent: Option<Bytes>, u: Update, now: nat, nowMs: nat)
    requires u.SubagentUpdate? && !(u.sessionId.Some? && Announces(u, parent, u.sessionId.value))
    ensures Announce(s, parent, u, now, nowMs).state == s
  {
  }

  /** Every child the step keeps has the clock the step gives it. */
  ghost predicate AllTick(s: State, t: State, step: Step) {
    forall id :: id in t.children ==> Ticks(s, step, id, ClockOf(t.children[id]))
  }

  lemma HeardTicks(s: State, t: State, step: Step, target: Bytes)
    requires step.Routing? && Heard(s, t, target, Announcer(s, step), step.now)
    requires Hears(s, step, target) && forall x :: x != target ==> !Hears(s, step, x)
    ensures AllTick(s, t, step)
  {
  }

  /** The announcing child, and the one it announces. */
  lemma BothHeardTick(s: State, r: State, t: State, step: Step, target: Bytes)
    requires step.Routing? && step.id in s.children && target != step.id
    requires Heard(s, r, step.id, None, step.now) && Heard(r, t, target, Some(step.id), step.now)
    requires r.children.Keys == s.children.Keys
    requires Hears(s, step, target) && forall x :: x != target && x != step.id ==> !Hears(s, step, x)
    ensures AllTick(s, t, step)
  {
  }

  lemma TouchHeard(s: State, id: Bytes, now: nat)
    requires id in s.children
    ensures Heard(s, Touch(s, id, now), id, None, now) && Heard(s, Touch(s, id, now), id, Some(id), now)
    ensures Touch(s, id, now).children.Keys == s.children.Keys
  {
  }

  lemma InsideTicks(s: State, step: Step)
    requires step.Routing? && step.id in s.children && !step.update.SubagentUpdate?
    ensures AllTick(s, Effect(s, step).state, step)
  {
    var id, u, now, nowMs := step.id, step.update, step.now, step.nowMs;
    var touched := Touch(s, id, now);
    var absorbed := Absorb(touched, id, u, now);
    var wanted := absorbed.republish || s.children[id].quiet;
    var t := if wanted then Publish(absorbed.state, id, now, nowMs).state else absorbed.state;
    assert t == Effect(s, step).state;
    TouchHeard(s, id, now);
    AbsorbClocks(touched, id, u, now);
    HeardThen(s, touched, absorbed.state, id, Some(id), now);
    PublishClocks(absorbed.state, id, now, nowMs);
    HeardThen(s, absorbed.state, t, id, Some(id), now);
    HeardTicks(s, t, step, id);
  }

  lemma ChildAnnounceTicks(s: State, step: Step)
    requires step.Routing? && step.id in s.children && step.update.SubagentUpdate?
    ensures AllTick(s, Effect(s, step).state, step)
  {
    var id, u, now, nowMs := step.id, step.update, step.now, step.nowMs;
    var touched := Touch(s, id, now);
    var told := Announce(touched, Some(id), u, now, nowMs).state;
    var t := if s.children[id].quiet then Publish(told, id, now, nowMs).state else told;
    assert t == Effect(s, step).state;
    TouchHeard(s, id, now);
    PublishClocks(told, id, now, nowMs);
    if u.sessionId.Some? && Announces(u, Some(id), u.sessionId.value) {
      AnnounceClocks(touched, Some(id), u, u.sessionId.value, now, nowMs);
      HeardThen(touched, told, t, u.sessionId.value, Some(id), now);
      BothHeardTick(s, touched, t, step, u.sessionId.value);
    } else {
      NotAnnounced(touched, Some(id), u, now, nowMs);
      HeardThen(s, touched, t, id, Some(id), now);
      HeardTicks(s, t, step, id);
    }
  }

  lemma RootTicks(s: State, step: Step)
    requires step.Routing? && step.id !in s.children && step.id !in s.retired
    ensures AllTick(s, Effect(s, step).state, step)
  {
    var u, now, nowMs := step.update, step.now, step.nowMs;
    if u.SubagentUpdate? {
      if u.sessionId.Some? && Announces(u, None, u.sessionId.value) {
        AnnounceClocks(s, None, u, u.sessionId.value, now, nowMs);
      } else {
        NotAnnounced(s, None, u, now, nowMs);
      }
    } else {
      RootMessageClocks(s, step);
    }
  }

  lemma RootMessageClocks(s: State, step: Step)
    requires step.Routing? && step.id !in s.children && step.id !in s.retired && !step.update.SubagentUpdate?
    ensures SameClocks(s, Effect(s, step).state)
  {
    var u, now, nowMs := step.update, step.now, step.nowMs;
    var linked := if u.IsMessage() then LinkMessage(s, step.id, u) else LinkOutcome(s, None);
    if u.IsMessage() {
      LinkClocks(s, step.id, u);
    }
    if linked.child.Some? {
      PublishClocks(linked.state, linked.child.value, now, nowMs);
    } else {
      PublishAllClocks(linked.state, DueIds(linked.state, linked.state.order, now), now, nowMs);
    }
    SameClocksJoin(s, linked.state, Effect(s, step).state);
  }

  lemma TimerTicks(s: State, step: Step)
    requires !step.Routing? && Books(s)
    ensures AllTick(s, Effect(s, step).state, step)
  {
    if step.Dueing? {
      PublishAllClocks(s, DueIds(s, s.order, step.now), step.now, step.nowMs);
    } else if step.Quieting? {
      var ids := SilentIds(s, s.order, step.now);
      var t := SilenceAll(s, ids, step.now, step.nowMs).state;
      SilenceAllUndisturbed(s, ids, step.now, step.nowMs);
      forall id | id in t.children ensures Ticks(s, step, id, ClockOf(t.children[id])) {
        SilentIdsAre(s, s.order, step.now, id);
        SilencedAll(s, ids, step.now, step.nowMs, id);
      }
    }
  }

  lemma StepTicks(s: State, step: Step)
    requires Books(s)
    ensures AllTick(s, Effect(s, step).state, step)
  {
    if !step.Routing? {
      TimerTicks(s, step);
    } else if step.id in s.children {
      if step.update.SubagentUpdate? {
        ChildAnnounceTicks(s, step);
      } else {
        InsideTicks(s, step);
      }
    } else if step.id !in s.retired {
      RootTicks(s, step);
    }
  }

  /* Runs. */

  /** The states of a run, one per step and the first. */
  ghost predicate IsRun(ss: seq<State>, steps: seq<Step>) {
    |ss| == |steps| + 1 && ss[0] == INITIAL && forall i: nat :: i < |steps| ==> StepAt(ss, steps, i)
  }

  ghost predicate StepAt(ss: seq<State>, steps: seq<Step>, i: nat)
    requires |ss| == |steps| + 1 && i < |steps|
  {
    ss[i + 1] == Effect(ss[i], steps[i]).state
  }

  lemma {:induction false} RunExecutes(ss: seq<State>, steps: seq<Step>, n: nat)
    requires IsRun(ss, steps) && n < |ss|
    ensures ss[n] == Exec(START, steps[..n]).state
  {
    if n > 0 {
      RunExecutes(ss, steps, n - 1);
      assert StepAt(ss, steps, n - 1);
      assert steps[..n][..n - 1] == steps[..n - 1];
    }
  }

  lemma RunBooks(ss: seq<State>, steps: seq<Step>, n: nat)
    requires IsRun(ss, steps) && n < |ss|
    ensures Books(ss[n])
  {
    RunExecutes(ss, steps, n);
    EveryRun(steps[..n]);
  }

  lemma TickAt(ss: seq<State>, steps: seq<Step>, n: nat, id: Bytes)
    requires IsRun(ss, steps) && n < |steps| && id in ss[n + 1].children
    ensures Ticks(ss[n], steps[n], id, ClockOf(ss[n + 1].children[id]))
  {
    RunBooks(ss, steps, n);
    assert StepAt(ss, steps, n);
    StepTicks(ss[n], steps[n]);
  }

  /** In every run a kept child belongs to the session whose update announced it when it was admitted. */
  lemma {:induction false} ParentTold(ss: seq<State>, steps: seq<Step>, n: nat, id: Bytes) returns (k: nat)
    requires IsRun(ss, steps) && n < |ss| && id in ss[n].children
    ensures k < n && id !in ss[k].children && forall j :: k < j <= n ==> id in ss[j].children
    ensures steps[k].Routing? && steps[k].update.SubagentUpdate? && steps[k].update.sessionId == Some(id)
    ensures ss[n].children[id].parent == if steps[k].id in ss[k].children then Some(steps[k].id) else None
  {
    TickAt(ss, steps, n - 1, id);
    if id in ss[n - 1].children {
      k := ParentTold(ss, steps, n - 1, id);
    } else {
      k := n - 1;
    }
  }

  /** The child is heard of: by its traffic or its announcement, or as its parent's turn ends while it works. */
  predicate HeardAt(ss: seq<State>, steps: seq<Step>, id: Bytes, k: nat)
    requires k < |steps| < |ss|
  {
    || Hears(ss[k], steps[k], id)
    || (steps[k].TurnEnding? && id in ss[k].children && ss[k].children[id].Working())
  }

  /** In every run, silence counts from the last time a kept child was heard of. */
  lemma {:induction false} SilenceTold(ss: seq<State>, steps: seq<Step>, n: nat, id: Bytes) returns (k: nat)
    requires IsRun(ss, steps) && n < |ss| && id in ss[n].children
    ensures k < n && HeardAt(ss, steps, id, k) && forall j: nat :: k < j < n ==> !HeardAt(ss, steps, id, j)
    ensures ss[n].children[id].lastTraffic == Some(steps[k].now)
  {
    TickAt(ss, steps, n - 1, id);
    if HeardAt(ss, steps, id, n - 1) {
      k := n - 1;
    } else {
      k := SilenceTold(ss, steps, n - 1, id);
    }
  }

  /** The silence timer finds the child silent. */
  predicate FoundSilent(ss: seq<State>, steps: seq<Step>, id: Bytes, k: nat)
    requires k < |steps| < |ss|
  {
    steps[k].Quieting? && id in ss[k].children && Silent(ss[k].children[id], steps[k].now)
  }

  /** It found it silent before step `n`, and nothing was heard of the child since. */
  ghost predicate SilentSince(ss: seq<State>, steps: seq<Step>, id: Bytes, n: nat, k: nat)
    requires k < n <= |steps| < |ss|
  {
    FoundSilent(ss, steps, id, k) && forall j: nat :: k < j < n ==> !Hears(ss[j], steps[j], id)
  }

  /** In every run a kept child no longer reports exactly when it was found silent, and was not heard of since. */
  lemma {:induction false} QuietTold(ss: seq<State>, steps: seq<Step>, n: nat, id: Bytes)
    requires IsRun(ss, steps) && n < |ss| && id in ss[n].children
    ensures ss[n].children[id].quiet <==> exists k: nat :: k < n && SilentSince(ss, steps, id, n, k)
  {
    var last := n - 1;
    TickAt(ss, steps, last, id);
    if Hears(ss[last], steps[last], id) {
      forall k: nat | k < n ensures !SilentSince(ss, steps, id, n, k) {
        assert k < last || !FoundSilent(ss, steps, id, k);
      }
    } else {
      QuietTold(ss, steps, last, id);
      if ss[last].children[id].quiet {
        var k: nat :| k < last && SilentSince(ss, steps, id, last, k);
        assert SilentSince(ss, steps, id, n, k);
      }
      if FoundSilent(ss, steps, id, last) {
        assert SilentSince(ss, steps, id, n, last);
      }
      if k: nat :| k < n && SilentSince(ss, steps, id, n, k) && k < last {
        assert SilentSince(ss, steps, id, last, k);
      }
    }
  }
}
