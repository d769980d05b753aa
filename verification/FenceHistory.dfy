/** What the fences show, told by the steps alone: who submitted, began and finished what. */
module FenceHistory {
  import opened Results
  import opened ConfigFences

  /* Reading the steps. */

  predicate Took(steps: seq<Step>, x: Step) {
    exists k :: 0 <= k < |steps| && steps[k] == x
  }

  /** The submissions, in order: change `i` is the `i`th of them. */
  function Submissions(steps: seq<Step>): (r: seq<Step>)
    ensures forall i :: 0 <= i < |r| ==> r[i].Submit?
  {
    if steps == [] then []
    else
      var last := steps[|steps| - 1];
      Submissions(steps[..|steps| - 1]) + if last.Submit? then [last] else []
  }

  /** For each prompt, how many changes were submitted before it. */
  function Asks(steps: seq<Step>): seq<nat> {
    if steps == [] then []
    else
      var init := steps[..|steps| - 1];
      Asks(init) + if steps[|steps| - 1].Ask? then [|Submissions(init)|] else []
  }

  /** Applied as it was submitted. */
  predicate AppliedAtOnce(x: Step) {
    x.Submit? && x.change.setting.route.AtOnce? && x.accepted && x.change.readable
  }

  /** Dropped as it was submitted: a mode that is no string, a queue that is gone, a value its route cannot take. */
  predicate DroppedAtOnce(x: Step) {
    && x.Submit?
    && match x.change.setting.route
       case ByMode => !x.change.readable
       case ByQueue(grok) => !x.accepted || (grok && !x.change.readable)
       case AtOnce => !x.accepted || !x.change.readable
  }

  /** Change `i` was carried out: the agent confirmed it, or it was applied at once. */
  ghost predicate Succeeded(steps: seq<Step>, i: nat) {
    Took(steps, Finish(i, true)) || (i < |Submissions(steps)| && AppliedAtOnce(Submissions(steps)[i]))
  }

  /** Change `i` was rejected or dropped: at once, when its turn came unreadable, or as the queues closed. */
  ghost predicate Lost(steps: seq<Step>, i: nat) {
    || Took(steps, Finish(i, false))
    || (i < |Submissions(steps)| && DroppedAtOnce(Submissions(steps)[i]))
    || (i < |Submissions(steps)| && !Submissions(steps)[i].change.readable && Took(steps, Begin(i)))
    || (Took(steps, Close) && !Succeeded(steps, i))
  }

  /** Change `f` is the last one of its setting that prompt `t` waits for. */
  ghost predicate LastBefore(steps: seq<Step>, t: nat, f: nat) {
    && t < |Asks(steps)| && f < Asks(steps)[t] <= |Submissions(steps)|
    && forall j :: f < j < Asks(steps)[t] ==>
         Submissions(steps)[j].change.setting != Submissions(steps)[f].change.setting
  }

  /** Of every setting, the last change before prompt `t` succeeded. */
  ghost predicate AllSucceeded(steps: seq<Step>, t: nat) {
    forall f: nat :: LastBefore(steps, t, f) ==> Succeeded(steps, f)
  }

  /* The steps tell the state. */

  /** Nothing is heard of a change before it is submitted, and its status says what became of it. */
  ghost predicate StatusTold(s: State, past: seq<Step>, i: nat) {
    if i < |s.status| then
      (s.status[i] == Decided(true) <==> Succeeded(past, i)) && (s.status[i] == Decided(false) <==> Lost(past, i))
    else !Took(past, Begin(i)) && forall ok :: !Took(past, Finish(i, ok))
  }

  ghost predicate ChangesTold(s: State, past: seq<Step>) {
    && |s.changes| == |s.status| == |Submissions(past)|
    && forall i :: 0 <= i < |s.changes| ==> Submissions(past)[i].change == s.changes[i]
  }

  ghost predicate PromptsTold(s: State, past: seq<Step>) {
    |s.prompts| == |Asks(past)| && forall t :: 0 <= t < |s.prompts| ==> s.prompts[t].at == Asks(past)[t]
  }

  ghost predicate Told(s: State, past: seq<Step>) {
    && ChangesTold(s, past) && PromptsTold(s, past)
    && (s.closed <==> Took(past, Close))
    && forall i: nat :: StatusTold(s, past, i)
  }

  lemma TookNext(past: seq<Step>, x: Step, y: Step)
    ensures Took(past + [x], y) <==> Took(past, y) || x == y
  {
    assert (past + [x])[|past|] == x;
    if Took(past, y) {
      var k :| 0 <= k < |past| && past[k] == y;
      assert (past + [x])[k] == y;
    }
  }

  lemma ListsNext(past: seq<Step>, x: Step)
    ensures Submissions(past + [x]) == Submissions(past) + if x.Submit? then [x] else []
    ensures Asks(past + [x]) == Asks(past) + if x.Ask? then [|Submissions(past)|] else []
  {
    assert (past + [x])[..|past|] == past;
  }

  /** What is said of change `i` after one more step. */
  lemma SaidNext(past: seq<Step>, x: Step, i: nat)
    requires i < |Submissions(past)|
    ensures i < |Submissions(past + [x])| && Submissions(past + [x])[i] == Submissions(past)[i]
    ensures Succeeded(past + [x], i) <==> Succeeded(past, i) || x == Finish(i, true)
    ensures Lost(past + [x], i) <==>
      || (Took(past, Finish(i, false)) || x == Finish(i, false))
      || DroppedAtOnce(Submissions(past)[i])
      || (!Submissions(past)[i].change.readable && (Took(past, Begin(i)) || x == Begin(i)))
      || ((Took(past, Close) || x == Close) && !(Succeeded(past, i) || x == Finish(i, true)))
  {
    ListsNext(past, x);
    TookNext(past, x, Finish(i, true));
    TookNext(past, x, Finish(i, false));
    TookNext(past, x, Begin(i));
    TookNext(past, x, Close);
  }

  lemma OldTold(s: State, past: seq<Step>, x: Step, i: nat)
    requires Told(s, past) && Enabled(s, x) && i < |s.changes|
    ensures StatusTold(Next(s, x), past + [x], i)
  {
    SaidNext(past, x, i);
    assert StatusTold(s, past, i);
  }

  lemma NewTold(s: State, past: seq<Step>, x: Step)
    requires Told(s, past) && Enabled(s, x) && x.Submit?
    ensures StatusTold(Next(s, x), past + [x], |s.changes|)
  {
    var i := |s.changes|;
    ListsNext(past, x);
    TookNext(past, x, Finish(i, true));
    TookNext(past, x, Finish(i, false));
    TookNext(past, x, Begin(i));
    TookNext(past, x, Close);
    assert StatusTold(s, past, i);
  }

  lemma LaterTold(s: State, past: seq<Step>, x: Step, i: nat)
    requires Told(s, past) && Enabled(s, x) && i >= |Next(s, x).changes|
    ensures StatusTold(Next(s, x), past + [x], i)
  {
    assert StatusTold(s, past, i);
    TookNext(past, x, Begin(i));
    forall ok ensures !Took(past + [x], Finish(i, ok)) {
      TookNext(past, x, Finish(i, ok));
    }
  }

  lemma TellsOn(s: State, past: seq<Step>, x: Step)
    requires Told(s, past) && Enabled(s, x)
    ensures Told(Next(s, x), past + [x])
  {
    var v := Next(s, x);
    ListsNext(past, x);
    TookNext(past, x, Close);
    forall i: nat ensures StatusTold(v, past + [x], i) {
      if i < |s.changes| {
        OldTold(s, past, x, i);
      } else if i < |v.changes| {
        NewTold(s, past, x);
      } else {
        LaterTold(s, past, x, i);
      }
    }
  }

  lemma {:induction false} RunTold(run: seq<State>, steps: seq<Step>, n: nat)
    requires IsRun(run, steps) && n < |run|
    ensures Told(run[n], steps[..n])
  {
    if n == 0 {
      forall i: nat ensures StatusTold(START, [], i) {
      }
      assert steps[..0] == [];
    } else {
      RunTold(run, steps, n - 1);
      assert StepAt(run, steps, n - 1);
      TellsOn(run[n - 1], steps[..n - 1], steps[n - 1]);
      assert steps[..n - 1] + [steps[n - 1]] == steps[..n];
    }
  }

  /**
   * In every run a fence is open if and only if its change succeeded, and failed if and only if the change was
   * rejected or dropped, as the steps before tell.
   */
  lemma FenceTells(run: seq<State>, steps: seq<Step>, n: nat, i: nat)
    requires IsRun(run, steps) && n < |run| && i < |Submissions(steps[..n])|
    ensures i < |run[n].changes| == |run[n].status| && run[n].changes[i] == Submissions(steps[..n])[i].change
    ensures run[n].status[i] == Decided(true) <==> Succeeded(steps[..n], i)
    ensures run[n].status[i] == Decided(false) <==> Lost(steps[..n], i)
  {
    RunTold(run, steps, n);
    assert StatusTold(run[n], steps[..n], i);
  }

  /** A prompt may be sent exactly when the last change of each setting before it succeeded. */
  lemma SendTold(s: State, past: seq<Step>, t: nat)
    requires Inv(s) && Told(s, past) && t < |s.prompts|
    ensures CanSend(s, s.prompts[t]) <==> AllSucceeded(past, t)
  {
    var p := s.prompts[t];
    assert Names(p.fences, s.changes, p.at);
    if CanSend(s, p) {
      forall f: nat | LastBefore(past, t, f) ensures Succeeded(past, f) {
        LastIsFence(s, past, t, f);
        assert StatusTold(s, past, f);
      }
    }
    if AllSucceeded(past, t) {
      forall setting | setting in p.fences
        ensures p.fences[setting] < |s.status| && s.status[p.fences[setting]] == Decided(true)
      {
        var f := p.fences[setting];
        FenceIsLast(s, past, t, setting);
        assert StatusTold(s, past, f);
      }
    }
  }

  lemma LastIsFence(s: State, past: seq<Step>, t: nat, f: nat)
    requires Inv(s) && Told(s, past) && t < |s.prompts| && LastBefore(past, t, f)
    ensures f < |s.status| && s.changes[f].setting in s.prompts[t].fences
    ensures s.prompts[t].fences[s.changes[f].setting] == f
  {
    var p := s.prompts[t];
    assert Names(p.fences, s.changes, p.at);
    var g := p.fences[s.changes[f].setting];
    assert IsLatest(s.changes, p.at, g) && s.changes[g].setting == s.changes[f].setting;
  }

  lemma FenceIsLast(s: State, past: seq<Step>, t: nat, setting: Setting)
    requires Inv(s) && Told(s, past) && t < |s.prompts| && setting in s.prompts[t].fences
    ensures s.prompts[t].fences[setting] < |s.status| && LastBefore(past, t, s.prompts[t].fences[setting])
  {
    var p := s.prompts[t];
    assert Names(p.fences, s.changes, p.at);
    assert IsLatest(s.changes, p.at, p.fences[setting]);
  }
}
