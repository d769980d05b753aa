/** Configuration changes and the fences a prompt waits for before it is sent. */
module ConfigFences {
  import opened Results

  /** How changes of a setting are applied: by the mode request, by a serial queue, or at once. */
  datatype Route = ByMode | ByQueue(grok: bool) | AtOnce

  datatype Setting = Setting(name: string, route: Route)

  /** `readable` says that the value has the form its route expects. */
  datatype Change = Change(setting: Setting, readable: bool)

  datatype Status = Waiting | Running | Decided(ok: bool)

  /** A prompt and the fences it took when it was submitted. */
  datatype Prompt = Prompt(at: nat, fences: map<Setting, nat>)

  /** All changes in order of submission, with the fence each one replaced. */
  datatype State = State(
    changes: seq<Change>,
    status: seq<Status>,
    previous: seq<Option<nat>>,
    latest: map<Setting, nat>,
    prompts: seq<Prompt>,
    closed: bool)

  const START := State([], [], [], map[], [], false)

  datatype Step =
    | Submit(change: Change, accepted: bool)
    | Begin(i: nat)
    | Finish(i: nat, ok: bool)
    | Close
    | Ask

  predicate SameQueue(a: Change, b: Change) {
    a.setting.route.ByQueue? && a.setting.route == b.setting.route
  }

  /** A mode change waits for the fence it replaced; a queued change for all before it in its queue. */
  predicate MayBegin(s: State, i: nat) {
    && i < |s.changes| == |s.status| == |s.previous|
    && s.status[i] == Waiting
    && (s.changes[i].setting.route.ByMode? ==>
          s.previous[i].None? || (s.previous[i].value < |s.status| && s.status[s.previous[i].value].Decided?))
    && (forall j :: 0 <= j < i && SameQueue(s.changes[j], s.changes[i]) ==> s.status[j].Decided?)
  }

  predicate Enabled(s: State, step: Step) {
    !s.closed
    && match step
       case Submit(_, _) => true
       case Begin(i) => MayBegin(s, i)
       case Finish(i, _) => i < |s.status| && s.status[i] == Running
       case Close => true
       case Ask => true
  }

  /** What the fence of a change shows once its completion is dropped. */
  function Dropped(status: Status): Status {
    if status.Decided? then status else Decided(false)
  }

  /** What becomes of a change when it is submitted; one that is dropped at once fails. */
  function Received(c: Change, accepted: bool): Status {
    match c.setting.route
    case ByMode => if c.readable then Waiting else Dropped(Waiting)
    case ByQueue(grok) => if accepted && (c.readable || !grok) then Waiting else Dropped(Waiting)
    case AtOnce => if accepted then Decided(c.readable) else Dropped(Waiting)
  }

  function AllDropped(status: seq<Status>): (r: seq<Status>)
    ensures |r| == |status|
    ensures forall i :: 0 <= i < |status| ==> r[i] == Dropped(status[i])
  {
    seq(|status|, i requires 0 <= i < |status| => Dropped(status[i]))
  }

  function Next(s: State, step: Step): State
    requires Enabled(s, step)
  {
    match step
    case Submit(c, accepted) =>
      s.(changes := s.changes + [c],
         status := s.status + [Received(c, accepted)],
         previous := s.previous + [if c.setting in s.latest then Some(s.latest[c.setting]) else None],
         latest := s.latest[c.setting := |s.changes|])
    case Begin(i) => s.(status := s.status[i := if s.changes[i].readable then Running else Dropped(s.status[i])])
    case Finish(i, ok) => s.(status := s.status[i := Decided(ok)])
    case Close => s.(status := AllDropped(s.status), closed := true)
    case Ask => s.(prompts := s.prompts + [Prompt(|s.changes|, s.latest)])
  }

  /** All fences of the prompt opened. */
  predicate CanSend(s: State, p: Prompt) {
    forall setting :: setting in p.fences ==>
      p.fences[setting] < |s.status| && s.status[p.fences[setting]] == Decided(true)
  }

  /* Waiting for fences. */

  datatype Waited = Blocked | Ready | Refused

  /** Waits for one fence after another: the first that is not open decides. */
  function Wait(fences: seq<Status>): (w: Waited)
    ensures w == Ready <==> forall i :: 0 <= i < |fences| ==> fences[i] == Decided(true)
  {
    if fences == [] then Ready
    else if !fences[0].Decided? then Blocked
    else if !fences[0].ok then Refused
    else Wait(fences[1..])
  }

  method WaitConfigFences(fences: seq<Status>) returns (w: Waited)
    ensures w == Wait(fences)
  {
    var i := 0;
    while i < |fences| && fences[i] == Decided(true)
      invariant i <= |fences| && Wait(fences) == Wait(fences[i..])
    {
      i := i + 1;
    }
    if i == |fences| {
      return Ready;
    }
    return if fences[i].Decided? then Refused else Blocked;
  }

  /**
   * The completion of one change. Its fence reads `Shown`: what the change is doing, until a result is sent. Finishing
   * consumes the completion, so it is dropped too.
   */
  class ConfigCompletion {
    var result: Option<bool>

    constructor ()
      ensures result.None?
    {
      result := None;
    }

    function Shown(doing: Status): Status
      requires !doing.Decided?
      reads this
    {
      if result.Some? then Decided(result.value) else doing
    }

    method Finish(ok: bool)
      modifies this
      ensures forall doing: Status :: !doing.Decided? ==> Shown(doing) == Decided(ok)
    {
      result := Some(ok);
      Drop();
    }

    method Drop()
      modifies this
      ensures forall doing: Status :: !doing.Decided? ==> Shown(doing) == Dropped(old(Shown(doing)))
    {
      if result.None? {
        result := Some(false);
      }
    }
  }

  /* What every step keeps. */

  /** `i` is the last change of its setting before `n`. */
  predicate IsLatest(changes: seq<Change>, n: nat, i: nat) {
    && i < n <= |changes|
    && forall j :: i < j < n ==> changes[j].setting != changes[i].setting
  }

  /** `fences` names the last change of each setting among the first `n`. */
  ghost predicate Names(fences: map<Setting, nat>, changes: seq<Change>, n: nat) {
    && n <= |changes|
    && (forall i :: 0 <= i < n ==> changes[i].setting in fences)
    && (forall setting :: setting in fences ==>
          IsLatest(changes, n, fences[setting]) && changes[fences[setting]].setting == setting)
  }

  /** `previous[i]` is the last change of the same setting before `i`. */
  predicate Follows(s: State, i: nat)
    requires i < |s.changes| == |s.previous|
  {
    if s.previous[i].Some? then
      var p := s.previous[i].value;
      IsLatest(s.changes, i, p) && s.changes[p].setting == s.changes[i].setting
    else forall j :: 0 <= j < i ==> s.changes[j].setting != s.changes[i].setting
  }

  /** What the status of change `i` says about the changes before it. */
  ghost predicate InOrder(s: State, i: nat)
    requires i < |s.changes| == |s.status| == |s.previous|
  {
    && (s.status[i] == Decided(true) || s.status[i] == Running ==> s.changes[i].readable)
    && (s.changes[i].setting.route.AtOnce? ==> s.status[i].Decided?)
    && (s.changes[i].setting.route.ByMode? && !s.changes[i].readable ==> s.status[i].Decided?)
    && (s.changes[i].setting.route.ByMode? && s.changes[i].readable && s.status[i] != Waiting && s.previous[i].Some? ==>
          s.previous[i].value < |s.status| && s.status[s.previous[i].value].Decided?)
    && (s.status[i] == Running || s.status[i] == Decided(true) ==>
          forall j :: 0 <= j < i && SameQueue(s.changes[j], s.changes[i]) ==> s.status[j].Decided?)
  }

  ghost predicate Inv(s: State) {
    && |s.changes| == |s.status| == |s.previous|
    && Names(s.latest, s.changes, |s.changes|)
    && (forall i :: 0 <= i < |s.changes| ==> Follows(s, i))
    && (forall i :: 0 <= i < |s.changes| ==> InOrder(s, i))
    && (forall k :: 0 <= k < |s.prompts| ==> Names(s.prompts[k].fences, s.changes, s.prompts[k].at))
  }

  lemma NamesGrows(fences: map<Setting, nat>, changes: seq<Change>, n: nat, c: Change)
    requires Names(fences, changes, n)
    ensures Names(fences, changes + [c], n)
  {
    forall setting | setting in fences
      ensures IsLatest(changes + [c], n, fences[setting]) && (changes + [c])[fences[setting]].setting == setting
    {
      assert IsLatest(changes, n, fences[setting]);
    }
  }

  lemma NamesNext(fences: map<Setting, nat>, changes: seq<Change>, c: Change)
    requires Names(fences, changes, |changes|)
    ensures Names(fences[c.setting := |changes|], changes + [c], |changes| + 1)
  {
    var more, next := changes + [c], fences[c.setting := |changes|];
    forall setting | setting in next
      ensures IsLatest(more, |more|, next[setting]) && more[next[setting]].setting == setting
    {
      if setting != c.setting {
        assert IsLatest(changes, |changes|, fences[setting]);
      }
    }
  }

  lemma SubmitKeeps(s: State, c: Change, accepted: bool)
    requires Inv(s) && Enabled(s, Submit(c, accepted))
    ensures Inv(Next(s, Submit(c, accepted)))
  {
    var v := Next(s, Submit(c, accepted));
    NamesNext(s.latest, s.changes, c);
    forall k | 0 <= k < |v.prompts| ensures Names(v.prompts[k].fences, v.changes, v.prompts[k].at) {
      NamesGrows(s.prompts[k].fences, s.changes, s.prompts[k].at, c);
    }
    forall i | 0 <= i < |v.changes| ensures Follows(v, i) && InOrder(v, i) {
      if i < |s.changes| {
        assert Follows(s, i) && InOrder(s, i);
      }
    }
  }

  /** A status that only moves forward keeps the order, if the moved change may move. */
  lemma MoveKeeps(s: State, v: State, i: nat)
    requires Inv(s) && i < |s.status| == |v.status| && v == s.(status := s.status[i := v.status[i]])
    requires !s.status[i].Decided? && v.status[i] != Waiting
    requires InOrder(v, i)
    ensures Inv(v)
  {
    forall k | 0 <= k < |v.changes| ensures Follows(v, k) && InOrder(v, k) {
      assert Follows(s, k) && InOrder(s, k);
    }
  }

  lemma StepKeeps(s: State, step: Step)
    requires Inv(s) && Enabled(s, step)
    ensures Inv(Next(s, step))
  {
    var v := Next(s, step);
    match step
    case Submit(c, accepted) => SubmitKeeps(s, c, accepted);
    case Begin(i) =>
      assert InOrder(s, i) && Follows(s, i);
      MoveKeeps(s, v, i);
    case Finish(i, _) =>
      assert InOrder(s, i) && Follows(s, i);
      MoveKeeps(s, v, i);
    case Close =>
      forall i | 0 <= i < |v.changes| ensures Follows(v, i) && InOrder(v, i) {
        assert Follows(s, i) && InOrder(s, i);
      }
    case Ask =>
      forall i | 0 <= i < |v.changes| ensures Follows(v, i) && InOrder(v, i) {
        assert Follows(s, i) && InOrder(s, i);
      }
  }

  /** A fence is decided once: later steps leave it as it was decided. */
  lemma DecidedStays(s: State, step: Step, i: nat)
    requires Inv(s) && Enabled(s, step) && i < |s.status| && s.status[i].Decided?
    ensures Next(s, step).status[i] == s.status[i]
  {
  }

  /** The statuses of the fences a prompt took, listed by `settings`. */
  function FencesOf(s: State, p: Prompt, settings: seq<Setting>): (r: seq<Status>)
    requires forall k :: 0 <= k < |settings| ==> settings[k] in p.fences && p.fences[settings[k]] < |s.status|
    ensures |r| == |settings|
    ensures forall k :: 0 <= k < |r| ==> r[k] == s.status[p.fences[settings[k]]]
  {
    seq(|settings|, k requires 0 <= k < |settings| => s.status[p.fences[settings[k]]])
  }

  /** In whatever order a prompt waits for its fences, it may be sent exactly when the wait succeeds. */
  lemma WaitDecides(s: State, p: Prompt, settings: seq<Setting>)
    requires Inv(s) && p in s.prompts && forall setting :: setting in settings <==> setting in p.fences
    ensures forall setting :: setting in p.fences ==> p.fences[setting] < |s.status|
    ensures Wait(FencesOf(s, p, settings)) == Ready <==> CanSend(s, p)
  {
    var k :| 0 <= k < |s.prompts| && s.prompts[k] == p;
    assert Names(s.prompts[k].fences, s.changes, s.prompts[k].at);
    var fences := FencesOf(s, p, settings);
    if Wait(fences) == Ready {
      forall setting | setting in p.fences ensures s.status[p.fences[setting]] == Decided(true) {
        var i: nat :| i < |settings| && settings[i] == setting;
        assert fences[i] == Decided(true);
      }
    }
  }

  lemma {:induction false} DecidedUnblocks(fences: seq<Status>)
    requires forall i :: 0 <= i < |fences| ==> fences[i].Decided?
    ensures Wait(fences) != Blocked
  {
    if fences != [] {
      DecidedUnblocks(fences[1..]);
    }
  }

  /** Once every change is decided no wait goes on. */
  lemma DecidedAnswers(v: State, p: Prompt, settings: seq<Setting>)
    requires Inv(v) && p in v.prompts && forall i :: 0 <= i < |v.status| ==> v.status[i].Decided?
    requires forall setting :: setting in settings <==> setting in p.fences
    ensures forall setting :: setting in p.fences ==> p.fences[setting] < |v.status|
    ensures Wait(FencesOf(v, p, settings)) == if CanSend(v, p) then Ready else Refused
  {
    WaitDecides(v, p, settings);
    DecidedUnblocks(FencesOf(v, p, settings));
  }

  /** Dropping fails closed: when the queues close, each wait ends, and is refused if a fence had not opened by then. */
  lemma ClosingRefuses(s: State, p: Prompt, settings: seq<Setting>)
    requires Inv(s) && Enabled(s, Close) && p in s.prompts
    requires forall setting :: setting in settings <==> setting in p.fences
    ensures
      var v := Next(s, Close);
      && (forall setting :: setting in p.fences ==> p.fences[setting] < |v.status|)
      && Wait(FencesOf(v, p, settings)) == if CanSend(s, p) then Ready else Refused
  {
    StepKeeps(s, Close);
    DecidedAnswers(Next(s, Close), p, settings);
    CloseOpensNone(s, p);
  }

  lemma CloseOpensNone(s: State, p: Prompt)
    requires Enabled(s, Close)
    ensures CanSend(Next(s, Close), p) <==> CanSend(s, p)
  {
    var v := Next(s, Close);
    assert forall i :: 0 <= i < |s.status| ==> (v.status[i] == Decided(true) <==> s.status[i] == Decided(true));
  }

  /** A prompt that may be sent may be sent from then on. */
  lemma SendStays(s: State, step: Step, p: Prompt)
    requires Inv(s) && Enabled(s, step) && CanSend(s, p)
    ensures CanSend(Next(s, step), p)
  {
    forall setting | setting in p.fences
      ensures
        var i := p.fences[setting];
        i < |Next(s, step).status| && Next(s, step).status[i] == Decided(true)
    {
      DecidedStays(s, step, p.fences[setting]);
    }
  }

  /* Runs. */

  predicate StepsTo(s: State, step: Step, v: State) {
    Enabled(s, step) && v == Next(s, step)
  }

  predicate StepAt(run: seq<State>, steps: seq<Step>, i: nat) {
    i < |steps| && i + 1 < |run| ==> StepsTo(run[i], steps[i], run[i + 1])
  }

  ghost predicate IsRun(run: seq<State>, steps: seq<Step>) {
    |run| == |steps| + 1 && run[0] == START && forall i: nat :: StepAt(run, steps, i)
  }

  lemma {:induction false} RunKeeps(run: seq<State>, steps: seq<Step>, i: nat)
    requires IsRun(run, steps) && i < |run|
    ensures Inv(run[i])
  {
    if i > 0 {
      RunKeeps(run, steps, i - 1);
      assert StepAt(run, steps, i - 1);
      StepKeeps(run[i - 1], steps[i - 1]);
    }
  }

  /** A change of the mode that cannot be read comes between change `i` and `end`. */
  predicate Unread(changes: seq<Change>, i: nat, end: nat) {
    && i < end <= |changes| && changes[i].setting.route.ByMode?
    && exists j :: i < j < end && changes[j].setting == changes[i].setting && !changes[j].readable
  }

  /** Back along the fences that mode changes replaced, all changes before a started one are decided. */
  lemma {:induction false} ModeChain(s: State, i: nat, f: nat)
    requires Inv(s) && i < f < |s.changes| && s.changes[i].setting == s.changes[f].setting
    requires s.changes[f].setting.route.ByMode? && s.changes[f].readable && s.status[f].Decided?
    requires forall j :: i < j < f && s.changes[j].setting == s.changes[i].setting ==> s.changes[j].readable
    ensures s.status[i].Decided?
    decreases f
  {
    assert Follows(s, f) && InOrder(s, f);
    var p := s.previous[f].value;
    if p != i {
      ModeChain(s, i, p);
    }
  }

  lemma FenceOf(s: State, p: Prompt, i: nat) returns (f: nat)
    requires Inv(s) && p in s.prompts && i < p.at <= |s.changes|
    ensures s.changes[i].setting in p.fences && f == p.fences[s.changes[i].setting]
    ensures i <= f < p.at && s.changes[f].setting == s.changes[i].setting
  {
    var k :| 0 <= k < |s.prompts| && s.prompts[k] == p;
    assert Names(s.prompts[k].fences, s.changes, s.prompts[k].at);
    f := p.fences[s.changes[i].setting];
    assert IsLatest(s.changes, p.at, f);
  }

  /** The last change of each setting submitted before the prompt succeeded, and change `i` is over or was cut off. */
  predicate Fenced(s: State, p: Prompt, i: nat)
    requires i < p.at
  {
    && p.at <= |s.changes| == |s.status|
    && (s.status[i].Decided? || Unread(s.changes, i, p.at))
    && var setting := s.changes[i].setting;
       setting in p.fences && p.fences[setting] < |s.status| && s.status[p.fences[setting]] == Decided(true)
  }

  lemma SendFenced(s: State, p: Prompt, i: nat)
    requires Inv(s) && p in s.prompts && CanSend(s, p) && i < p.at
    ensures Fenced(s, p, i)
  {
    PromptWithin(s, p);
    var f := FenceOf(s, p, i);
    assert InOrder(s, f) && InOrder(s, i);
    if i < f && s.changes[i].setting.route.ByMode? && !Unread(s.changes, i, p.at) {
      ModeChain(s, i, f);
    }
  }

  /**
   * When a prompt may be sent, the last change of each setting submitted before it succeeded, and no change
   * submitted before it is still waiting or running, unless an unreadable change of the mode came after it.
   */
  lemma FencesHold(run: seq<State>, steps: seq<Step>, n: nat, p: Prompt, i: nat)
    requires IsRun(run, steps) && n < |run| && p in run[n].prompts && CanSend(run[n], p) && i < p.at
    ensures Fenced(run[n], p, i)
  {
    RunKeeps(run, steps, n);
    SendFenced(run[n], p, i);
  }

  lemma PromptWithin(s: State, p: Prompt)
    requires Inv(s) && p in s.prompts
    ensures p.at <= |s.changes|
  {
    var k :| 0 <= k < |s.prompts| && s.prompts[k] == p;
    assert Names(s.prompts[k].fences, s.changes, s.prompts[k].at);
  }

  /* Exactly when an earlier change can still be in flight. */

  /** The submissions let a prompt be sent while an earlier change is in flight. */
  ghost predicate Overtakes(cs: seq<Change>) {
    exists run: seq<State>, steps: seq<Step>, p: Prompt, i: nat :: Overtaking(run, steps, p, i, cs)
  }

  ghost predicate Overtaking(run: seq<State>, steps: seq<Step>, p: Prompt, i: nat, cs: seq<Change>) {
    && IsRun(run, steps)
    && var s := run[|run| - 1];
       && |s.changes| == |s.status| && p in s.prompts && p.at == |cs| <= |s.changes| && s.changes[..p.at] == cs
       && CanSend(s, p) && i < p.at && !s.status[i].Decided?
  }

  /** The last change of every setting can be read. */
  predicate LastReadable(cs: seq<Change>) {
    forall i :: 0 <= i < |cs| && IsLatest(cs, |cs|, i) ==> cs[i].readable
  }

  /** A readable change of the mode is followed by one that is not. */
  predicate ModeUnread(cs: seq<Change>) {
    exists i :: 0 <= i < |cs| && cs[i].readable && Unread(cs, i, |cs|)
  }

  lemma OvertakesOnly(cs: seq<Change>)
    requires Overtakes(cs)
    ensures LastReadable(cs) && ModeUnread(cs)
  {
    var run: seq<State>, steps: seq<Step>, p: Prompt, i: nat :| Overtaking(run, steps, p, i, cs);
    var n := |run| - 1;
    var s := run[n];
    RunKeeps(run, steps, n);
    FencesHold(run, steps, n, p, i);
    assert InOrder(s, i);
    var j :| i < j < p.at && s.changes[j].setting == s.changes[i].setting && !s.changes[j].readable;
    assert cs[i] == s.changes[i] && cs[j] == s.changes[j];
    assert Unread(cs, i, |cs|);
    forall k | 0 <= k < |cs| && IsLatest(cs, |cs|, k) ensures cs[k].readable {
      var f := FenceOf(s, p, k);
      assert cs[k] == s.changes[k] && cs[f] == s.changes[f];
      assert f == k;
      assert InOrder(s, f);
    }
  }

  /** A run, with its last state. */
  datatype Trace = Trace(run: seq<State>, steps: seq<Step>)
  {
    ghost predicate Valid() {
      IsRun(run, steps)
    }

    function Last(): State
      requires run != []
    {
      run[|run| - 1]
    }
  }

  lemma Extended(t: Trace, step: Step) returns (u: Trace)
    requires t.Valid() && Enabled(t.Last(), step)
    ensures u.Valid() && u.Last() == Next(t.Last(), step)
  {
    u := Trace(t.run + [Next(t.Last(), step)], t.steps + [step]);
    forall i: nat ensures StepAt(u.run, u.steps, i) {
      assert StepAt(t.run, t.steps, i);
    }
  }

  /** Every change before `m` was carried through, but `i` is still running. */
  ghost predicate Carried(s: State, cs: seq<Change>, i: nat, m: nat) {
    && m <= |cs| && s.changes == cs[..m] && |s.status| == m && |s.previous| == m && !s.closed && s.prompts == []
    && forall k :: 0 <= k < m ==>
         if k == i then s.status[k] == Running
         else s.status[k].Decided? && (s.changes[k].readable ==> s.status[k].ok)
  }

  lemma CarryNext(t: Trace, cs: seq<Change>, i: nat, m: nat) returns (u: Trace)
    requires t.Valid() && m < |cs| && i < |cs| && Carried(t.Last(), cs, i, m) && Inv(t.Last())
    requires cs[i].readable && cs[i].setting.route.ByMode?
    requires i < m && cs[m].setting == cs[i].setting && cs[m].readable ==> Unread(cs, i, m)
    ensures u.Valid() && Carried(u.Last(), cs, i, m + 1)
  {
    var c := cs[m];
    u := Extended(t, Submit(c, true));
    var s := u.Last();
    assert s.changes == cs[..m + 1];
    if s.status[m] == Waiting {
      SubmitKeeps(t.Last(), c, true);
      assert Follows(s, m);
      if c.setting.route.ByMode? && s.previous[m].Some? {
        var p := s.previous[m].value;
        assert p != i;
      }
      u := Extended(u, Begin(m));
      if c.readable && m != i {
        u := Extended(u, Finish(m, true));
      }
    }
  }

  lemma {:induction false} Carry(cs: seq<Change>, i: nat, m: nat) returns (t: Trace)
    requires m <= |cs| && i < |cs| && cs[i].readable && cs[i].setting.route.ByMode? && Skipped(cs, i)
    ensures t.Valid() && Carried(t.Last(), cs, i, m)
  {
    if m == 0 {
      t := Trace([START], []);
    } else {
      t := Carry(cs, i, m - 1);
      RunKeeps(t.run, t.steps, |t.run| - 1);
      t := CarryNext(t, cs, i, m - 1);
    }
  }

  /** No later readable change of its setting waits for change `i`: an unreadable one is between them. */
  predicate Skipped(cs: seq<Change>, i: nat)
    requires i < |cs|
  {
    forall m :: i < m < |cs| && cs[m].setting == cs[i].setting && cs[m].readable ==> Unread(cs, i, m)
  }

  function NextOf(cs: seq<Change>, i: nat, k: nat): (r: nat)
    requires i < k <= |cs|
    ensures k <= r <= |cs|
    ensures r < |cs| ==> cs[r].setting == cs[i].setting
    ensures forall m :: k <= m < r ==> cs[m].setting != cs[i].setting
    decreases |cs| - k
  {
    if k == |cs| || cs[k].setting == cs[i].setting then k else NextOf(cs, i, k + 1)
  }

  /** Of the readable changes of the mode before an unreadable one, the last is skipped. */
  lemma {:induction false} LastSkipped(cs: seq<Change>, i: nat) returns (r: nat)
    requires i < |cs| && cs[i].readable && Unread(cs, i, |cs|)
    ensures r < |cs| && cs[r].readable && Unread(cs, r, |cs|) && Skipped(cs, r)
    decreases |cs| - i
  {
    var k := NextOf(cs, i, i + 1);
    if cs[k].readable {
      r := LastSkipped(cs, k);
    } else {
      r := i;
    }
  }

  lemma OvertakesThen(cs: seq<Change>)
    requires LastReadable(cs) && ModeUnread(cs)
    ensures Overtakes(cs)
  {
    var i0 :| 0 <= i0 < |cs| && cs[i0].readable && Unread(cs, i0, |cs|);
    var i := LastSkipped(cs, i0);
    var t := Carry(cs, i, |cs|);
    assert cs[..|cs|] == cs;
    RunKeeps(t.run, t.steps, |t.run| - 1);
    var u := Extended(t, Ask);
    var s, p := u.Last(), Prompt(|cs|, t.Last().latest);
    assert p in s.prompts;
    forall setting | setting in p.fences
      ensures p.fences[setting] < |s.status| && s.status[p.fences[setting]] == Decided(true)
    {
      assert IsLatest(cs, |cs|, p.fences[setting]);
    }
    assert Overtaking(u.run, u.steps, p, i, cs);
  }

  /**
   * Some run sends a prompt while an earlier change is in flight if and only if the last change of each setting can
   * be read and, for the mode, a readable change was followed by one that could not be read.
   */
  lemma OvertakesIff(cs: seq<Change>)
    ensures Overtakes(cs) <==> LastReadable(cs) && ModeUnread(cs)
  {
    if Overtakes(cs) {
      OvertakesOnly(cs);
    }
    if LastReadable(cs) && ModeUnread(cs) {
      OvertakesThen(cs);
    }
  }

  /** Three changes of the mode, the second not a string, let a prompt overtake the first. */
  lemma ModeOvertaken(name: string)
    ensures
      var mode := Setting(name, ByMode);
      Overtakes([Change(mode, true), Change(mode, false), Change(mode, true)])
  {
    var mode := Setting(name, ByMode);
    var cs := [Change(mode, true), Change(mode, false), Change(mode, true)];
    assert cs[1].setting == mode && !cs[1].readable;
    assert Unread(cs, 0, |cs|);
    assert forall i :: 0 <= i < 2 ==> cs[i].setting == cs[2].setting;
    OvertakesIff(cs);
  }
}
