/** How a prompt ends, told by the steps alone: the stops, the ticks of the watchdog, and the agent's last reply. */
module WorkerHistory {
  import opened Results
  import opened WorkerPrompts

  /* Reading the steps. */

  function Stops(steps: seq<Step>): nat {
    if steps == [] then 0 else Stops(steps[..|steps| - 1]) + if steps[|steps| - 1].Stop? then 1 else 0
  }

  /** For each prompt, the stops before it was accepted. */
  function Accepts(steps: seq<Step>): seq<nat> {
    if steps == [] then []
    else
      var init := steps[..|steps| - 1];
      Accepts(init) + if steps[|steps| - 1].Accept? then [Stops(init)] else []
  }

  /** The agent's last reply to a request of prompt `t`. */
  function LastReply(steps: seq<Step>, t: nat): Option<Response> {
    if steps == [] then None
    else
      var last := steps[|steps| - 1];
      if last.Reply? && last.i == t then Some(last.response) else LastReply(steps[..|steps| - 1], t)
  }

  /** The watchdog did more than look at prompt `t`. */
  predicate Disturbed(steps: seq<Step>, t: nat) {
    exists k :: 0 <= k < |steps| && steps[k].Tick? && steps[k].i == t && !steps[k].verdict.KeepWaiting?
  }

  /** A stop came since prompt `t` was accepted. */
  predicate StoppedBy(steps: seq<Step>, t: nat) {
    t < |Accepts(steps)| && Accepts(steps)[t] < Stops(steps)
  }

  /** Prompt `t` looked while its request was out, and saw that it was stopped. */
  predicate StopSeen(steps: seq<Step>, t: nat) {
    if steps == [] then false
    else
      var init, last := steps[..|steps| - 1], steps[|steps| - 1];
      StopSeen(init, t) || last == Notice(t) || ((last == Recheck(t) || last == Enter(t)) && StoppedBy(init, t))
  }

  predicate IsOk(reply: Option<Response>) {
    reply.Some? && reply.value.ok
  }

  lemma {:induction false} StopsSince(steps: seq<Step>, t: nat)
    requires t < |Accepts(steps)|
    ensures Accepts(steps)[t] <= Stops(steps)
  {
    var init := steps[..|steps| - 1];
    if t < |Accepts(init)| {
      StopsSince(init, t);
    }
  }

  lemma StepRead(past: seq<Step>, x: Step, t: nat)
    ensures Stops(past + [x]) == Stops(past) + if x.Stop? then 1 else 0
    ensures Accepts(past + [x]) == Accepts(past) + if x.Accept? then [Stops(past)] else []
    ensures LastReply(past + [x], t) == if x.Reply? && x.i == t then Some(x.response) else LastReply(past, t)
    ensures StopSeen(past + [x], t) <==>
      StopSeen(past, t) || x == Notice(t) || ((x == Recheck(t) || x == Enter(t)) && StoppedBy(past, t))
    ensures Disturbed(past + [x], t) <==> Disturbed(past, t) || (x.Tick? && x.i == t && !x.verdict.KeepWaiting?)
  {
    assert (past + [x])[..|past|] == past && (past + [x])[|past|] == x;
    if Disturbed(past, t) {
      var k :| 0 <= k < |past| && past[k].Tick? && past[k].i == t && !past[k].verdict.KeepWaiting?;
      assert (past + [x])[k] == past[k];
    }
  }

  /* The steps tell the state. */

  /** What is known of a task. */
  predicate TaskTold(x: Task, reply: Option<Response>, stopped: bool, disturbed: bool, seen: bool) {
    && (x.response.Some? ==> reply == x.response)
    && (x.place.Queued? || x.place.Configuring? || x.place.Preparing? ==> reply.None?)
    && (x.place.BackingOff? ==> x.response.Some?)
    && (x.Ended() && x.place.outcome == Finished ==> IsOk(reply))
    && (!disturbed ==>
          && !x.recycled && !x.hopeless && x.place != Awaiting(true)
          && (!stopped ==> !x.cancelled && !x.waitCancelled && (x.Ended() ==> x.place.outcome == Unstopped(reply)))
          && (seen ==> if x.Ended() then x.place.outcome == Cancelled else SawStop(x)))
  }

  /** How a prompt ends that nothing cancelled. */
  function Unstopped(reply: Option<Response>): Label {
    if IsOk(reply) then Finished else Failed
  }

  predicate SawStop(x: Task) {
    (x.place.Entering? && x.cancelled) || (x.place.Awaiting? && (x.cancelled || x.waitCancelled))
  }

  predicate TaskToldAt(w: Worker, past: seq<Step>, t: nat) {
    if t < |w.tasks| then
      && t < |Accepts(past)| && w.tasks[t].accepted == Accepts(past)[t]
      && TaskTold(w.tasks[t], LastReply(past, t), StoppedBy(past, t), Disturbed(past, t), StopSeen(past, t))
    else LastReply(past, t).None? && !Disturbed(past, t) && !StopSeen(past, t)
  }

  ghost predicate Told(w: Worker, past: seq<Step>) {
    && w.stops == Stops(past) && |w.tasks| == |Accepts(past)|
    && forall t: nat :: TaskToldAt(w, past, t)
  }

  lemma OthersUntouched(w: Worker, x: Step, t: nat)
    requires Enabled(w, x) && t < |w.tasks| && (x.Accept? || x.Stop? || x.i != t)
    ensures t < |Next(w, x).tasks| && Next(w, x).tasks[t] == w.tasks[t]
  {
  }

  /** A step of the task itself before it sends. */
  lemma UnsentTold(w: Worker, x: Step, reply: Option<Response>, disturbed: bool, seen: bool)
    requires Enabled(w, x) && (x.Acquire? || x.Configure? || x.Prepare?)
    requires TaskTold(w.tasks[x.i], reply, Stopped(w, x.i), disturbed, seen) && w.tasks[x.i].accepted <= w.stops
    ensures TaskTold(Next(w, x).tasks[x.i], reply, Stopped(w, x.i), disturbed, seen)
  {
  }

  /** A step of the task itself that looks at the reply. */
  lemma AnsweredTold(w: Worker, x: Step, reply: Option<Response>, disturbed: bool, seen: bool)
    requires Enabled(w, x) && (x.Decide? || x.Wake?)
    requires TaskTold(w.tasks[x.i], reply, Stopped(w, x.i), disturbed, seen) && w.tasks[x.i].accepted <= w.stops
    ensures TaskTold(Next(w, x).tasks[x.i], reply, Stopped(w, x.i), disturbed, seen)
  {
  }

  /** A step of the task itself while its request is out, or once it ended. */
  lemma LookingTold(w: Worker, x: Step, reply: Option<Response>, disturbed: bool, seen: bool)
    requires Enabled(w, x) && (x.Send? || x.Recheck? || x.Enter? || x.Notice? || x.Publish? || x.Conclude?)
    requires TaskTold(w.tasks[x.i], reply, Stopped(w, x.i), disturbed, seen)
    requires w.tasks[x.i].accepted <= w.stops < GENERATIONS
    ensures
      var sees := x.Notice? || ((x.Recheck? || x.Enter?) && Stopped(w, x.i));
      TaskTold(Next(w, x).tasks[x.i], reply, Stopped(w, x.i), disturbed, seen || sees)
  {
  }

  lemma ReplyTold(w: Worker, x: Step, reply: Option<Response>, stopped: bool, disturbed: bool, seen: bool)
    requires Enabled(w, x) && x.Reply? && OneHolder(w) && OneRequest(w)
    requires TaskTold(w.tasks[x.i], reply, stopped, disturbed, seen)
    ensures TaskTold(Next(w, x).tasks[x.i], Some(x.response), stopped, disturbed, seen)
  {
    assert w.outstanding == [x.i] && w.tasks[x.i].InFlight();
  }

  lemma TickTold(w: Worker, x: Step, reply: Option<Response>, stopped: bool, disturbed: bool, seen: bool)
    requires Enabled(w, x) && x.Tick? && TaskTold(w.tasks[x.i], reply, stopped, disturbed, seen)
    ensures TaskTold(Next(w, x).tasks[x.i], reply, stopped, disturbed || !x.verdict.KeepWaiting?, seen)
  {
  }

  lemma FormerTold(w: Worker, past: seq<Step>, x: Step, t: nat)
    requires Inv(w) && Told(w, past) && Enabled(w, x) && t < |w.tasks| && w.stops < GENERATIONS
    ensures TaskToldAt(Next(w, x), past + [x], t)
  {
    StepRead(past, x, t);
    StopsSince(past, t);
    assert TaskToldAt(w, past, t);
    var reply, stopped := LastReply(past, t), StoppedBy(past, t);
    var disturbed, seen := Disturbed(past, t), StopSeen(past, t);
    if x.Accept? || x.Stop? || x.i != t {
      OthersUntouched(w, x, t);
    } else if x.Reply? {
      ReplyTold(w, x, reply, stopped, disturbed, seen);
    } else if x.Tick? {
      TickTold(w, x, reply, stopped, disturbed, seen);
    } else if x.Acquire? || x.Configure? || x.Prepare? {
      UnsentTold(w, x, reply, disturbed, seen);
    } else if x.Decide? || x.Wake? {
      AnsweredTold(w, x, reply, disturbed, seen);
    } else {
      LookingTold(w, x, reply, disturbed, seen);
    }
    SameAccepted(w, x, t);
  }

  lemma SameAccepted(w: Worker, x: Step, t: nat)
    requires Enabled(w, x) && t < |w.tasks|
    ensures t < |Next(w, x).tasks| && Next(w, x).tasks[t].accepted == w.tasks[t].accepted
  {
  }

  lemma CountsTold(w: Worker, past: seq<Step>, x: Step)
    requires Told(w, past) && Enabled(w, x)
    ensures Next(w, x).stops == Stops(past + [x]) && |Next(w, x).tasks| == |Accepts(past + [x])|
    ensures x.Accept? ==> Next(w, x).tasks[|w.tasks|] == Task(w.stops, Queued, 0, false, false, false, false, None, 0)
    ensures !x.Accept? ==> |Next(w, x).tasks| == |w.tasks|
    ensures !x.Accept? && !x.Stop? ==> x.i < |w.tasks|
  {
    StepRead(past, x, 0);
  }

  lemma TellsOn(w: Worker, past: seq<Step>, x: Step)
    requires Inv(w) && Told(w, past) && Enabled(w, x) && w.stops < GENERATIONS
    ensures Told(Next(w, x), past + [x])
  {
    CountsTold(w, past, x);
    forall t: nat ensures TaskToldAt(Next(w, x), past + [x], t) {
      if t < |w.tasks| {
        FormerTold(w, past, x, t);
      } else {
        assert TaskToldAt(w, past, t);
        StepRead(past, x, t);
      }
    }
  }

  lemma {:induction false} RunTold(ws: seq<Worker>, steps: seq<Step>, n: nat)
    requires IsRun(ws, steps) && n < |ws| && ws[n].stops < GENERATIONS
    ensures Told(ws[n], steps[..n])
  {
    if n == 0 {
      assert steps[..0] == [];
    } else {
      RunKeeps(ws, steps, n - 1);
      assert StepAt(ws, steps, n - 1);
      StopsGrow(ws[n - 1], steps[n - 1], ws[n]);
      RunTold(ws, steps, n - 1);
      TellsOn(ws[n - 1], steps[..n - 1], steps[n - 1]);
      assert steps[..n - 1] + [steps[n - 1]] == steps[..n];
    }
  }

  /**
   * A prompt publishes `Finished` only if the agent's last reply was good, and `Cancelled` only if it was stopped or
   * the watchdog stepped in. If neither happened it publishes `Finished` exactly when that reply was good, else
   * `Failed`.
   * If it saw the stop while its request was out, and the watchdog stayed away, it publishes `Cancelled`.
   */
  lemma PublishedOutcome(ws: seq<Worker>, steps: seq<Step>, n: nat, t: nat, o: Label)
    requires IsRun(ws, steps) && n < |ws| && Stops(steps[..n]) < GENERATIONS
    requires Count(ws[n].log, Completed(t, o)) > 0
    ensures
      var past := steps[..n];
      && t < |Accepts(past)|
      && (o == Finished ==> IsOk(LastReply(past, t)))
      && (o == Cancelled ==> StoppedBy(past, t) || Disturbed(past, t))
      && (!StoppedBy(past, t) && !Disturbed(past, t) ==> o == if IsOk(LastReply(past, t)) then Finished else Failed)
      && (StopSeen(past, t) && !Disturbed(past, t) ==> o == Cancelled)
  {
    RunKeeps(ws, steps, n);
    StopsTold(ws, steps, n);
    RunTold(ws, steps, n);
    assert EndedOnce(ws[n], t, o) && TaskToldAt(ws[n], steps[..n], t);
    StopsSince(steps[..n], t);
  }

  lemma {:induction false} StopsTold(ws: seq<Worker>, steps: seq<Step>, n: nat)
    requires IsRun(ws, steps) && n < |ws|
    ensures ws[n].stops == Stops(steps[..n])
  {
    if n == 0 {
      assert steps[..0] == [];
    } else {
      StopsTold(ws, steps, n - 1);
      assert StepAt(ws, steps, n - 1);
      StepRead(steps[..n - 1], steps[n - 1], 0);
      assert steps[..n - 1] + [steps[n - 1]] == steps[..n];
    }
  }

  /** A prompt the agent answered well, that no stop and no watchdog reached, publishes `Finished` once it is done. */
  lemma AnsweredFinishes(ws: seq<Worker>, steps: seq<Step>, n: nat, t: nat)
    requires IsRun(ws, steps) && n < |ws| && Stops(steps[..n]) < GENERATIONS
    requires t < |ws[n].tasks| && ws[n].tasks[t].place.Done?
    requires !StoppedBy(steps[..n], t) && !Disturbed(steps[..n], t) && IsOk(LastReply(steps[..n], t))
    ensures Count(ws[n].log, Completed(t, Finished)) == 1 && Count(ws[n].log, TurnEnd(t, Finished)) == 1
  {
    RunKeeps(ws, steps, n);
    StopsTold(ws, steps, n);
    RunTold(ws, steps, n);
    assert EndedOnce(ws[n], t, Finished) && TaskToldAt(ws[n], steps[..n], t);
  }
}
