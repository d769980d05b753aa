/** The prompt tasks of a worker: one lock, a cancellation generation, and the requests they send. */
module WorkerPrompts {
  import opened Results

  /** The generation counter wraps after 64 bits. */
  const GENERATIONS: nat := 0x1_0000_0000_0000_0000

  datatype Response = Response(ok: bool, retryable: bool)

  datatype Label = Cancelled | Failed | Finished

  /** Where a prompt task is: an ending one publishes its completion, a closing one its turn end. */
  datatype Place =
    | Queued | Configuring | Preparing | Sending | Rechecking | Entering | Awaiting(grace: bool) | BackingOff
    | Ending(outcome: Label) | Closing(outcome: Label) | Done(outcome: Label)

  /**
   * One accepted prompt. `accepted` counts the stops before it; the flags are those of its task: cancelled while
   * sending or retrying, cancelled while waiting, recycled by the watchdog, ended by the provider's own backoff.
   */
  datatype Task = Task(
    accepted: nat,
    place: Place,
    retries: nat,
    cancelled: bool,
    waitCancelled: bool,
    recycled: bool,
    hopeless: bool,
    response: Option<Response>,
    requests: nat)
  {
    predicate Working() {
      !place.Queued? && !place.Done?
    }

    predicate Unsent() {
      place.Queued? || place.Configuring? || place.Preparing? || place.Sending?
    }

    predicate Ended() {
      place.Ending? || place.Closing? || place.Done?
    }

    /** Its request was sent and not answered. */
    predicate InFlight() {
      (place.Rechecking? || place.Entering? || place.Awaiting?) && response.None?
    }
  }

  datatype Output =
    | Request(task: nat)
    | Cancel
    | CancelRequest(task: nat)
    | Completed(task: nat, outcome: Label)
    | TurnEnd(task: nat, outcome: Label)

  datatype Worker = Worker(tasks: seq<Task>, holder: Option<nat>, outstanding: seq<nat>, stops: nat, log: seq<Output>)

  const IDLE := Worker([], None, [], 0, [])

  datatype Verdict = KeepWaiting | Hopeless | Stuck

  datatype Step =
    | Accept
    | Stop
    | Acquire(i: nat)
    | Configure(i: nat, ok: bool)
    | Prepare(i: nat)
    | Send(i: nat)
    | Recheck(i: nat)
    | Enter(i: nat)
    | Reply(i: nat, response: Response)
    | Notice(i: nat)
    | Tick(i: nat, verdict: Verdict)
    | Decide(i: nat, visible: bool)
    | Wake(i: nat, noticed: bool, visible: bool)
    | Publish(i: nat)
    | Conclude(i: nat)

  /** The generation is not the one the prompt was accepted in. */
  predicate Changed(w: Worker, t: Task) {
    w.stops % GENERATIONS != t.accepted % GENERATIONS
  }

  predicate At(w: Worker, i: nat, place: Place) {
    i < |w.tasks| && w.tasks[i].place == place
  }

  predicate Waits(w: Worker, i: nat) {
    i < |w.tasks| && w.tasks[i].place.Awaiting?
  }

  predicate Enabled(w: Worker, step: Step) {
    match step
    case Accept | Stop => true
    case Acquire(i) => At(w, i, Queued) && w.holder.None?
    case Configure(i, _) => At(w, i, Configuring)
    case Prepare(i) => At(w, i, Preparing)
    case Send(i) => At(w, i, Sending)
    case Recheck(i) => At(w, i, Rechecking)
    case Enter(i) => At(w, i, Entering)
    case Reply(i, _) => i < |w.tasks| && i in w.outstanding
    case Notice(i) => Waits(w, i) && w.tasks[i].response.None? && Changed(w, w.tasks[i])
    case Tick(i, _) => Waits(w, i) && w.tasks[i].response.None?
    case Decide(i, _) => Waits(w, i) && w.tasks[i].response.Some?
    case Wake(i, noticed, _) => At(w, i, BackingOff) && (noticed ==> w.stops > w.tasks[i].accepted)
    case Publish(i) => i < |w.tasks| && w.tasks[i].place.Ending?
    case Conclude(i) => i < |w.tasks| && w.tasks[i].place.Closing?
  }

  function With(w: Worker, i: nat, t: Task): Worker
    requires i < |w.tasks|
  {
    w.(tasks := w.tasks[i := t])
  }

  function Saying(w: Worker, outputs: seq<Output>): Worker {
    w.(log := w.log + outputs)
  }

  /** A prompt is to end; it still holds the lock, and has published nothing. */
  function End(w: Worker, i: nat, outcome: Label): Worker
    requires i < |w.tasks|
  {
    With(w, i, w.tasks[i].(place := Ending(outcome)))
  }

  /** How a task that sent its request ends. */
  function Outcome(t: Task): Label {
    if t.hopeless && !t.recycled then Failed
    else if t.cancelled && !t.recycled then Cancelled
    else if t.recycled then Failed
    else if t.response.Some? && t.response.value.ok then Finished
    else Failed
  }

  function Finish(w: Worker, i: nat, t: Task): Worker
    requires i < |w.tasks|
  {
    End(With(w, i, t), i, Outcome(t))
  }

  function Without(s: seq<nat>, i: nat): seq<nat> {
    if s == [] then [] else if s[0] == i then Without(s[1..], i) else [s[0]] + Without(s[1..], i)
  }

  function Decided(w: Worker, i: nat, visible: bool): Worker
    requires Enabled(w, Decide(i, visible))
  {
    var t := w.tasks[i].(cancelled := w.tasks[i].cancelled || w.tasks[i].waitCancelled);
    var r := t.response.value;
    if t.recycled || t.cancelled || r.ok || !r.retryable || visible || t.retries != 0 then Finish(w, i, t)
    else With(w, i, t.(retries := t.retries + 1, place := BackingOff))
  }

  function Woken(w: Worker, i: nat, noticed: bool, visible: bool): Worker
    requires Enabled(w, Wake(i, noticed, visible))
  {
    var t := w.tasks[i];
    if noticed || Changed(w, t) then Finish(w, i, t.(cancelled := true))
    else if visible then Finish(w, i, t)
    else With(w, i, t.(place := Sending, response := None))
  }

  function Ticked(w: Worker, i: nat, verdict: Verdict): Worker
    requires Enabled(w, Tick(i, verdict))
  {
    var t := w.tasks[i];
    if t.place.grace then With(w, i, t.(recycled := true, place := Awaiting(false)))
    else if t.waitCancelled || verdict.KeepWaiting? then w
    else
      var waiting := t.(waitCancelled := true, place := Awaiting(true), hopeless := t.hopeless || verdict.Hopeless?);
      Saying(With(w, i, waiting), [Cancel])
  }

  function Next(w: Worker, step: Step): Worker
    requires Enabled(w, step)
  {
    match step
    case Accept =>
      w.(tasks := w.tasks + [Task(w.stops, Queued, 0, false, false, false, false, None, 0)])
    case Stop => Saying(w.(stops := w.stops + 1), [Cancel])
    case Acquire(i) =>
      if Changed(w, w.tasks[i]) then End(w.(holder := Some(i)), i, Cancelled)
      else With(w.(holder := Some(i)), i, w.tasks[i].(place := Configuring))
    case Configure(i, ok) =>
      if !ok then End(w, i, if Changed(w, w.tasks[i]) then Cancelled else Failed)
      else With(w, i, w.tasks[i].(place := Preparing))
    case Prepare(i) =>
      if Changed(w, w.tasks[i]) then End(w, i, Cancelled)
      else With(w, i, w.tasks[i].(place := Sending))
    case Send(i) =>
      var t := w.tasks[i];
      var sent := Saying(With(w, i, t.(place := Rechecking, requests := t.requests + 1)), [Request(i)]);
      sent.(outstanding := w.outstanding + [i])
    case Recheck(i) =>
      var t := w.tasks[i];
      if Changed(w, t) then Saying(With(w, i, t.(place := Entering, cancelled := true)), [CancelRequest(i), Cancel])
      else With(w, i, t.(place := Entering))
    case Enter(i) =>
      var t := w.tasks[i];
      if Changed(w, t) then Saying(With(w, i, t.(place := Awaiting(false), waitCancelled := true)), [Cancel])
      else With(w, i, t.(place := Awaiting(false), waitCancelled := false))
    case Reply(i, response) =>
      With(w, i, w.tasks[i].(response := Some(response))).(outstanding := Without(w.outstanding, i))
    case Notice(i) => Saying(With(w, i, w.tasks[i].(waitCancelled := true)), [Cancel])
    case Tick(i, verdict) => Ticked(w, i, verdict)
    case Decide(i, visible) => Decided(w, i, visible)
    case Wake(i, noticed, visible) => Woken(w, i, noticed, visible)
    case Publish(i) =>
      var t := w.tasks[i];
      Saying(With(w, i, t.(place := Closing(t.place.outcome))), [Completed(i, t.place.outcome)])
    case Conclude(i) =>
      var t := w.tasks[i];
      Saying(With(w, i, t.(place := Done(t.place.outcome))), [TurnEnd(i, t.place.outcome)]).(holder := None)
  }

  /* One lock, one request. */

  ghost predicate OneHolder(w: Worker) {
    && (w.holder.Some? ==> w.holder.value < |w.tasks| && w.tasks[w.holder.value].Working())
    && (forall i :: 0 <= i < |w.tasks| && w.tasks[i].Working() ==> w.holder == Some(i))
    && (forall i :: 0 <= i < |w.tasks| && w.tasks[i].Unsent() ==> w.tasks[i].response.None?)
  }

  /** Exactly the request of the lock's holder is outstanding, while it is in flight. */
  ghost predicate OneRequest(w: Worker) {
    w.outstanding ==
      if w.holder.Some? && w.holder.value < |w.tasks| && w.tasks[w.holder.value].InFlight() then [w.holder.value]
      else []
  }

  /* Every task ends once. */

  function Count(log: seq<Output>, x: Output): nat {
    if log == [] then 0 else Count(log[..|log| - 1], x) + if log[|log| - 1] == x then 1 else 0
  }

  /** The place of a task that published its completion. */
  function Late(w: Worker, i: nat): Option<Place> {
    if i < |w.tasks| && (w.tasks[i].place.Closing? || w.tasks[i].place.Done?) then Some(w.tasks[i].place) else None
  }

  /** Task `i` published its completion once if it came that far, its turn end once if it is done, and nothing else. */
  predicate EndedOnce(w: Worker, i: nat, outcome: Label) {
    Tally(Count(w.log, Completed(i, outcome)), Count(w.log, TurnEnd(i, outcome)), Late(w, i), outcome)
  }

  predicate Tally(completions: nat, turnEnds: nat, late: Option<Place>, outcome: Label) {
    && completions == (if late == Some(Closing(outcome)) || late == Some(Done(outcome)) then 1 else 0)
    && turnEnds == (if late == Some(Done(outcome)) then 1 else 0)
  }

  ghost predicate EndsOnce(w: Worker) {
    forall i: nat, outcome: Label :: EndedOnce(w, i, outcome)
  }

  /* Stops reach every request. */

  predicate CancelAfter(log: seq<Output>, k: nat) {
    exists m :: k < m < |log| && log[m].Cancel?
  }

  /** Some stop came after the prompt was accepted. */
  predicate Stopped(w: Worker, i: nat)
    requires i < |w.tasks|
  {
    w.tasks[i].accepted < w.stops
  }

  /** The request just sent has not been rechecked yet. */
  predicate Unchecked(w: Worker, i: nat, k: nat)
    requires i < |w.tasks|
  {
    w.tasks[i].place.Rechecking? && (forall m :: k < m < |w.log| ==> w.log[m] != Request(i))
  }

  ghost predicate CancelsFollow(w: Worker) {
    && (forall i :: 0 <= i < |w.tasks| ==> w.tasks[i].accepted <= w.stops)
    && (forall i: nat, k: nat :: Followed(w, i, k))
  }

  /** A request names a task. */
  ghost predicate Tasks(w: Worker) {
    forall k :: 0 <= k < |w.log| && w.log[k].Request? ==> w.log[k].task < |w.tasks|
  }

  /* Each step keeps all of it. */

  /** The holder's task becomes `t`: still at work, or done and the lock free. */
  lemma HolderMoves(w: Worker, v: Worker, i: nat, t: Task)
    requires OneHolder(w) && w.holder == Some(i) && i < |w.tasks| && v.tasks == w.tasks[i := t]
    requires if v.holder == Some(i) then t.Working() else v.holder.None? && !t.Working()
    requires t.Unsent() ==> t.response.None?
    ensures OneHolder(v)
  {
  }

  /** Any other step moves the holder's task alone. */
  lemma HolderFacts(w: Worker, step: Step)
    requires OneHolder(w) && OneRequest(w) && Enabled(w, step) && !step.Accept? && !step.Stop? && !step.Acquire?
    ensures
      var v := Next(w, step);
      && w.holder == Some(step.i) && step.i < |w.tasks| && v.tasks == w.tasks[step.i := v.tasks[step.i]]
      && (if v.holder == Some(step.i) then v.tasks[step.i].Working() else v.holder.None? && !v.tasks[step.i].Working())
      && (v.tasks[step.i].Unsent() ==> v.tasks[step.i].response.None?)
  {
  }

  lemma HolderKeeps(w: Worker, step: Step)
    requires OneHolder(w) && OneRequest(w) && Enabled(w, step)
    ensures OneHolder(Next(w, step))
  {
    if !step.Accept? && !step.Stop? && !step.Acquire? {
      HolderFacts(w, step);
      HolderMoves(w, Next(w, step), step.i, Next(w, step).tasks[step.i]);
    }
  }

  lemma RequestKeeps(w: Worker, step: Step)
    requires OneHolder(w) && OneRequest(w) && Enabled(w, step)
    ensures OneRequest(Next(w, step))
  {
    if step.Reply? {
      assert w.outstanding == [step.i];
      assert Without([step.i], step.i) == [];
    } else if step.Send? {
      assert w.holder == Some(step.i) && w.outstanding == [];
    } else if step.Stop? || step.Accept? {
    } else {
      assert step.Acquire? || w.holder == Some(step.i);
    }
  }

  lemma {:induction false} CountJoin(log: seq<Output>, more: seq<Output>, x: Output)
    ensures Count(log + more, x) == Count(log, x) + Count(more, x)
  {
    if more == [] {
      assert log + more == log;
    } else {
      assert (log + more)[..|log + more| - 1] == log + more[..|more| - 1];
      CountJoin(log, more[..|more| - 1], x);
    }
  }

  /** What a step adds to the log. */
  function Added(w: Worker, step: Step): seq<Output>
    requires Enabled(w, step)
    ensures Next(w, step).log == w.log + Added(w, step)
  {
    var v := Next(w, step);
    assert v.log == w.log + v.log[|w.log|..];
    v.log[|w.log|..]
  }

  /** Nothing but publishing a completion or a turn end adds one to the log. */
  lemma AddedIs(w: Worker, step: Step)
    requires Enabled(w, step)
    ensures
      var more := Added(w, step);
      if step.Publish? then more == [Completed(step.i, w.tasks[step.i].place.outcome)]
      else if step.Conclude? then more == [TurnEnd(step.i, w.tasks[step.i].place.outcome)]
      else |more| <= 2 && forall k :: 0 <= k < |more| ==> !more[k].Completed? && !more[k].TurnEnd?
  {
  }

  /** A task gets past its end only by publishing. */
  lemma PlacesKept(w: Worker, step: Step, i: nat)
    requires Enabled(w, step)
    ensures Late(Next(w, step), i) ==
      if step == Publish(i) then Some(Closing(w.tasks[i].place.outcome))
      else if step == Conclude(i) then Some(Done(w.tasks[i].place.outcome))
      else Late(w, i)
  {
  }

  lemma {:induction false} CountNone(more: seq<Output>, x: Output)
    requires forall k :: 0 <= k < |more| ==> more[k] != x
    ensures Count(more, x) == 0
  {
    if more != [] {
      CountNone(more[..|more| - 1], x);
    }
  }

  /** The step publishes `x`. */
  predicate Publishes(w: Worker, step: Step, x: Output) {
    && (step.Publish? || step.Conclude?) && step.i < |w.tasks|
    && match w.tasks[step.i].place
       case Ending(o) => step.Publish? && x == Completed(step.i, o)
       case Closing(o) => step.Conclude? && x == TurnEnd(step.i, o)
       case _ => false
  }

  lemma CountMore(log: seq<Output>, more: seq<Output>, x: Output)
    requires more == [x] || forall k :: 0 <= k < |more| ==> more[k] != x
    ensures Count(log + more, x) == Count(log, x) + if more == [x] then 1 else 0
  {
    CountJoin(log, more, x);
    if more == [x] {
      assert [x][..0] == [];
    } else {
      CountNone(more, x);
    }
  }

  lemma CountNext(w: Worker, step: Step, more: seq<Output>, x: Output)
    requires Enabled(w, step) && more == Added(w, step) && (x.Completed? || x.TurnEnd?)
    ensures Count(w.log + more, x) == Count(w.log, x) + if Publishes(w, step, x) then 1 else 0
  {
    AddedIs(w, step);
    assert Publishes(w, step, x) <==> more == [x];
    CountMore(w.log, more, x);
  }

  lemma LateNext(w: Worker, step: Step, i: nat, o: Label)
    requires Enabled(w, step)
    ensures Publishes(w, step, Completed(i, o)) ==> Late(w, i).None? && Late(Next(w, step), i) == Some(Closing(o))
    ensures Publishes(w, step, TurnEnd(i, o)) ==>
      Late(w, i) == Some(Closing(o)) && Late(Next(w, step), i) == Some(Done(o))
    ensures Publishes(w, step, Completed(i, o)) || Publishes(w, step, TurnEnd(i, o))
      || Late(Next(w, step), i) == Late(w, i)
      || (Late(w, i) != Some(Closing(o)) && Late(w, i) != Some(Done(o))
          && Late(Next(w, step), i) != Some(Closing(o)) && Late(Next(w, step), i) != Some(Done(o)))
  {
    PlacesKept(w, step, i);
  }

  lemma EndedKept(w: Worker, step: Step, v: Worker, i: nat, outcome: Label)
    requires EndedOnce(w, i, outcome) && StepsTo(w, step, v)
    ensures EndedOnce(v, i, outcome)
  {
    var more, x, y := Added(w, step), Completed(i, outcome), TurnEnd(i, outcome);
    CountNext(w, step, more, x);
    CountNext(w, step, more, y);
    LateNext(w, step, i, outcome);
    TallyNext(
      Count(w.log, x), Count(w.log, y), Late(w, i), outcome,
      Publishes(w, step, x), Publishes(w, step, y), Late(v, i));
  }

  lemma TallyNext(completions: nat, turnEnds: nat, late: Option<Place>, o: Label,
                  completes: bool, ends: bool, later: Option<Place>)
    requires Tally(completions, turnEnds, late, o)
    requires completes ==> late.None? && later == Some(Closing(o))
    requires ends ==> late == Some(Closing(o)) && later == Some(Done(o))
    requires completes || ends || later == late
      || (late != Some(Closing(o)) && late != Some(Done(o)) && later != Some(Closing(o)) && later != Some(Done(o)))
    ensures Tally(completions + if completes then 1 else 0, turnEnds + if ends then 1 else 0, later, o)
  {
  }

  lemma EndsKeeps(w: Worker, step: Step)
    requires EndsOnce(w) && Enabled(w, step)
    ensures EndsOnce(Next(w, step))
  {
    forall i: nat, outcome: Label ensures EndedOnce(Next(w, step), i, outcome) {
      EndedKept(w, step, Next(w, step), i, outcome);
    }
  }

  lemma CancelAfterGrows(log: seq<Output>, more: seq<Output>, k: nat)
    requires CancelAfter(log, k)
    ensures CancelAfter(log + more, k)
  {
    var m :| k < m < |log| && log[m].Cancel?;
    assert (log + more)[m].Cancel?;
  }

  lemma CancelAdded(log: seq<Output>, more: seq<Output>, k: nat)
    requires k < |log| && more != [] && more[|more| - 1].Cancel?
    ensures CancelAfter(log + more, k)
  {
    assert (log + more)[|log| + |more| - 1].Cancel?;
  }

  /** Before 2^64 stops, a stop after acceptance is noticed by comparing generations. */
  lemma StoppedIsChanged(w: Worker, i: nat)
    requires i < |w.tasks| && w.tasks[i].accepted <= w.stops < GENERATIONS
    ensures Stopped(w, i) <==> Changed(w, w.tasks[i])
  {
  }

  ghost predicate Followed(w: Worker, i: nat, k: nat) {
    i < |w.tasks| && k < |w.log| && w.log[k] == Request(i) && Stopped(w, i) ==>
      CancelAfter(w.log, k) || Unchecked(w, i, k)
  }

  lemma FollowedOld(w: Worker, step: Step, i: nat, k: nat)
    requires OneHolder(w) && OneRequest(w) && CancelsFollow(w) && Enabled(w, step)
    requires i < |w.tasks| && k < |w.log| && w.log[k] == Request(i) && Next(w, step).stops < GENERATIONS
    ensures Followed(Next(w, step), i, k)
  {
    var more := Added(w, step);
    assert Followed(w, i, k);
    if step.Stop? {
      CancelAdded(w.log, more, k);
    } else if Stopped(w, i) {
      StoppedIsChanged(w, i);
      if CancelAfter(w.log, k) {
        CancelAfterGrows(w.log, more, k);
      } else if step == Recheck(i) {
        CancelAdded(w.log, more, k);
      } else {
        assert w.holder == Some(i);
        assert step.Accept? || step.Reply?;
      }
    }
  }

  lemma FollowedKeeps(w: Worker, step: Step, i: nat, k: nat)
    requires OneHolder(w) && OneRequest(w) && CancelsFollow(w) && Tasks(w) && Enabled(w, step)
    requires Next(w, step).stops < GENERATIONS
    ensures Followed(Next(w, step), i, k)
  {
    assert Next(w, step).log == w.log + Added(w, step);
    if k < |w.log| && w.log[k] == Request(i) {
      assert i < |w.tasks|;
      FollowedOld(w, step, i, k);
    }
  }

  /* Every run. */

  predicate StepsTo(w: Worker, step: Step, v: Worker) {
    Enabled(w, step) && v == Next(w, step)
  }

  ghost predicate IsRun(ws: seq<Worker>, steps: seq<Step>) {
    && |ws| == |steps| + 1 && ws[0] == IDLE
    && forall i: nat :: StepAt(ws, steps, i)
  }

  predicate StepAt(ws: seq<Worker>, steps: seq<Step>, i: nat) {
    i < |steps| && i + 1 < |ws| ==> StepsTo(ws[i], steps[i], ws[i + 1])
  }

  ghost predicate Inv(w: Worker) {
    OneHolder(w) && OneRequest(w) && EndsOnce(w)
  }

  lemma InvKeeps(w: Worker, step: Step, v: Worker)
    requires Inv(w) && StepsTo(w, step, v)
    ensures Inv(v)
  {
    HolderKeeps(w, step);
    RequestKeeps(w, step);
    EndsKeeps(w, step);
  }

  lemma {:induction false} RunKeeps(ws: seq<Worker>, steps: seq<Step>, i: nat)
    requires IsRun(ws, steps) && i < |ws|
    ensures Inv(ws[i])
  {
    if i > 0 {
      RunKeeps(ws, steps, i - 1);
      assert StepAt(ws, steps, i - 1);
      InvKeeps(ws[i - 1], steps[i - 1], ws[i]);
    }
  }

  /**
   * Over all interleavings at most one request is in flight, and it is the lock holder's. A task that is done has
   * published one completion and one turn end, both with its outcome, and no other; one still closing only the
   * completion; any other task neither.
   */
  lemma EveryRun(ws: seq<Worker>, steps: seq<Step>, i: nat)
    requires IsRun(ws, steps) && i < |ws|
    ensures |ws[i].outstanding| <= 1
    ensures forall t :: t in ws[i].outstanding ==>
      ws[i].holder == Some(t) && t < |ws[i].tasks| && ws[i].tasks[t].InFlight()
    ensures forall t: nat, o: Label :: EndedOnce(ws[i], t, o)
  {
    RunKeeps(ws, steps, i);
  }

  ghost predicate Cancels(w: Worker) {
    CancelsFollow(w) && Tasks(w)
  }

  lemma AcceptedKeeps(w: Worker, step: Step)
    requires Enabled(w, step) && Tasks(w)
    requires forall i :: 0 <= i < |w.tasks| ==> w.tasks[i].accepted <= w.stops
    ensures forall i :: 0 <= i < |Next(w, step).tasks| ==> Next(w, step).tasks[i].accepted <= Next(w, step).stops
    ensures Tasks(Next(w, step))
  {
  }

  lemma StopsGrow(w: Worker, step: Step, v: Worker)
    requires StepsTo(w, step, v)
    ensures w.stops <= v.stops
  {
  }

  lemma CancelsStep(w: Worker, step: Step, v: Worker)
    requires Inv(w) && Cancels(w) && StepsTo(w, step, v) && v.stops < GENERATIONS
    ensures Cancels(v)
  {
    AcceptedKeeps(w, step);
    forall t: nat, k: nat ensures Followed(v, t, k) {
      FollowedKeeps(w, step, t, k);
    }
  }

  lemma {:induction false} CancelsKeep(ws: seq<Worker>, steps: seq<Step>, i: nat)
    requires IsRun(ws, steps) && i < |ws| && ws[i].stops < GENERATIONS
    ensures Cancels(ws[i])
  {
    if i > 0 {
      assert StepAt(ws, steps, i - 1);
      StopsGrow(ws[i - 1], steps[i - 1], ws[i]);
      CancelsKeep(ws, steps, i - 1);
      RunKeeps(ws, steps, i - 1);
      CancelsStep(ws[i - 1], steps[i - 1], ws[i]);
    }
  }

  /** What a stopped task can still send: the request it was about to send, if it had passed its last check. */
  function Ahead(t: Task): nat {
    t.requests + if t.place.Sending? then 1 else 0
  }

  ghost predicate StoppedAt(w: Worker, t: nat) {
    t < |w.tasks| && Stopped(w, t)
  }

  lemma AheadKeeps(w: Worker, step: Step, v: Worker, t: nat)
    requires StepsTo(w, step, v) && StoppedAt(w, t) && OneHolder(w) && w.stops < GENERATIONS
    ensures StoppedAt(v, t)
    ensures Ahead(v.tasks[t]) <= Ahead(w.tasks[t])
  {
    StoppedIsChanged(w, t);
    RequestsNext(w, step, v, t);
    NoNewSending(w, step, v, t);
  }

  /** Sending is leaving the place for it. */
  lemma RequestsNext(w: Worker, step: Step, v: Worker, t: nat)
    requires StepsTo(w, step, v) && t < |w.tasks|
    ensures t < |v.tasks| && v.tasks[t].accepted == w.tasks[t].accepted
    ensures v.tasks[t].requests == w.tasks[t].requests + if step == Send(t) then 1 else 0
    ensures step == Send(t) ==> w.tasks[t].place.Sending? && !v.tasks[t].place.Sending?
  {
  }

  /** A prompt that noticed a stop never gets to the place for sending. */
  lemma NoNewSending(w: Worker, step: Step, v: Worker, t: nat)
    requires StepsTo(w, step, v) && t < |w.tasks| && Changed(w, w.tasks[t])
    ensures t < |v.tasks| && (v.tasks[t].place.Sending? ==> w.tasks[t].place.Sending?) && w.stops <= v.stops
  {
  }

  lemma {:induction false} AheadStays(ws: seq<Worker>, steps: seq<Step>, i: nat, j: nat, t: nat)
    requires IsRun(ws, steps) && i <= j < |ws| && ws[j].stops < GENERATIONS && StoppedAt(ws[i], t)
    ensures StoppedAt(ws[j], t)
    ensures Ahead(ws[j].tasks[t]) <= Ahead(ws[i].tasks[t])
    decreases j
  {
    if i < j {
      assert StepAt(ws, steps, j - 1);
      StopsGrow(ws[j - 1], steps[j - 1], ws[j]);
      AheadStays(ws, steps, i, j - 1, t);
      RunKeeps(ws, steps, j - 1);
      AheadKeeps(ws[j - 1], steps[j - 1], ws[j], t);
    }
  }

  /**
   * A prompt accepted before a stop is never retried after it: it sends at most the one request it was already past
   * its check for. Every request it ever sent is followed by a cancel, once the one just sent was rechecked.
   */
  lemma StopReaches(ws: seq<Worker>, steps: seq<Step>, i: nat, j: nat, t: nat)
    requires IsRun(ws, steps) && i <= j < |ws| && ws[j].stops < GENERATIONS
    requires t < |ws[i].tasks| && Stopped(ws[i], t)
    ensures t < |ws[j].tasks|
    ensures ws[j].tasks[t].requests <= ws[i].tasks[t].requests + if ws[i].tasks[t].place.Sending? then 1 else 0
    ensures forall k :: 0 <= k < |ws[j].log| && ws[j].log[k] == Request(t) ==>
      CancelAfter(ws[j].log, k) || Unchecked(ws[j], t, k)
  {
    AheadStays(ws, steps, i, j, t);
    CancelsKeep(ws, steps, j);
    forall k | 0 <= k < |ws[j].log| && ws[j].log[k] == Request(t)
      ensures CancelAfter(ws[j].log, k) || Unchecked(ws[j], t, k)
    {
      assert Followed(ws[j], t, k);
    }
  }

  /** A prompt that ends before it sent anything is cancelled if and only if it was stopped; else it failed. */
  lemma EndsUnsent(w: Worker, step: Step, v: Worker, t: nat)
    requires StepsTo(w, step, v) && t < |w.tasks| && w.tasks[t].accepted <= w.stops < GENERATIONS
    requires w.tasks[t].Unsent() && v.tasks[t].Ended()
    ensures v.tasks[t].place == Ending(if Stopped(w, t) then Cancelled else Failed)
  {
    StoppedIsChanged(w, t);
    UnsentEnding(w, step, v, t);
  }

  lemma UnsentEnding(w: Worker, step: Step, v: Worker, t: nat)
    requires StepsTo(w, step, v) && t < |w.tasks| && w.tasks[t].Unsent() && v.tasks[t].Ended()
    ensures (step.Acquire? || step.Configure? || step.Prepare?) && step.i == t
  {
  }

  lemma SentEnding(w: Worker, step: Step, v: Worker, t: nat)
    requires StepsTo(w, step, v) && t < |w.tasks|
    requires !w.tasks[t].Unsent() && !w.tasks[t].Ended() && v.tasks[t].Ended()
    ensures (step.Decide? || step.Wake?) && step.i == t
  {
  }

  /** A prompt that was sent finishes only with the agent's own answer, when nothing cancelled or recycled it. */
  lemma EndsSent(w: Worker, step: Step, v: Worker, t: nat) returns (outcome: Label)
    requires StepsTo(w, step, v) && t < |w.tasks| && w.tasks[t].accepted <= w.stops < GENERATIONS
    requires !w.tasks[t].Unsent() && !w.tasks[t].Ended() && v.tasks[t].Ended()
    ensures v.tasks[t].place == Ending(outcome)
    ensures
      var x := w.tasks[t];
      var stopped := if x.place.BackingOff? then Stopped(w, t) else x.waitCancelled;
      var ok := x.response.Some? && x.response.value.ok;
      && (outcome == Finished <==> ok && !x.cancelled && !stopped && !x.recycled && !x.hopeless)
      && (outcome == Cancelled <==> (x.cancelled || stopped) && !x.recycled && !x.hopeless)
      && (outcome == Failed <==> x.recycled || x.hopeless || (!ok && !x.cancelled && !stopped))
  {
    StoppedIsChanged(w, t);
    SentEnding(w, step, v, t);
    var x := w.tasks[t];
    if step.Decide? {
      outcome := Outcome(x.(cancelled := x.cancelled || x.waitCancelled));
    } else {
      outcome := Outcome(if Stopped(w, t) then x.(cancelled := true) else x);
    }
  }

  /** Generations tell a stopped prompt from one that was not exactly while the stops since are no multiple of 2^64. */
  lemma ChangedIff(w: Worker, i: nat)
    requires i < |w.tasks| && w.tasks[i].accepted <= w.stops
    ensures Changed(w, w.tasks[i]) <==> (w.stops - w.tasks[i].accepted) % GENERATIONS != 0
  {
    var a, b := w.tasks[i].accepted, w.stops;
    var r := b % GENERATIONS - a % GENERATIONS;
    ModShift(b / GENERATIONS - a / GENERATIONS, r);
    assert b - a == (b / GENERATIONS - a / GENERATIONS) * GENERATIONS + r;
    assert r % GENERATIONS == 0 <==> r == 0;
  }

  lemma ModShift(n: int, r: int)
    ensures (n * GENERATIONS + r) % GENERATIONS == r % GENERATIONS
  {
  }
}
