/** A prompt is sent again at most once, and only after a failure that showed nothing and may be tried again. */
module WorkerRetries {
  import opened Results
  import opened WorkerPrompts
  import opened WorkerHistory

  const MAY_RETRY := Response(false, true)

  /** A retry is decided exactly after the first such failure, when nothing cancelled or recycled the prompt. */
  lemma RetryIff(w: Worker, t: nat, visible: bool)
    requires Enabled(w, Decide(t, visible))
    ensures
      var x := w.tasks[t];
      Next(w, Decide(t, visible)).tasks[t].place == BackingOff <==>
        && x.response == Some(MAY_RETRY) && !visible && x.retries == 0
        && !x.cancelled && !x.waitCancelled && !x.recycled
  {
  }

  /* The run of one prompt. */

  /** The prompt failed with nothing shown, in a way that may be tried again, and it was decided to. */
  predicate DecidedAt(steps: seq<Step>, t: nat, k: nat)
    requires k < |steps|
  {
    steps[k] == Decide(t, false) && LastReply(steps[..k], t) == Some(MAY_RETRY)
  }

  ghost predicate RetryDecided(steps: seq<Step>, t: nat) {
    exists k: nat :: k < |steps| && DecidedAt(steps, t, k)
  }

  /** Then the pause passed without a stop, and still nothing was shown. */
  ghost predicate RetryWoken(steps: seq<Step>, t: nat) {
    exists k: nat, m: nat :: k < m < |steps| && DecidedAt(steps, t, k) && steps[m] == Wake(t, false, false)
  }

  lemma DecidedLonger(past: seq<Step>, x: Step, t: nat)
    ensures RetryDecided(past, t) ==> RetryDecided(past + [x], t)
    ensures RetryWoken(past, t) ==> RetryWoken(past + [x], t)
    ensures x == Decide(t, false) && LastReply(past, t) == Some(MAY_RETRY) ==> RetryDecided(past + [x], t)
    ensures x == Wake(t, false, false) && RetryDecided(past, t) ==> RetryWoken(past + [x], t)
  {
    var more := past + [x];
    assert more[..|past|] == past && more[|past|] == x;
    forall k: nat | k < |past| ensures DecidedAt(more, t, k) <==> DecidedAt(past, t, k) {
      assert more[..k] == past[..k];
    }
    if RetryWoken(past, t) {
      var k: nat, m: nat :| k < m < |past| && DecidedAt(past, t, k) && past[m] == Wake(t, false, false);
      assert DecidedAt(more, t, k) && more[m] == Wake(t, false, false);
    }
    if x == Decide(t, false) && LastReply(past, t) == Some(MAY_RETRY) {
      assert DecidedAt(more, t, |past|);
    }
    if RetryDecided(past, t) && x == Wake(t, false, false) {
      var k: nat :| k < |past| && DecidedAt(past, t, k);
      assert DecidedAt(more, t, k) && more[|past|] == Wake(t, false, false);
    }
  }

  /** How many requests the prompt sent, and why it sent the second. */
  predicate Sends(x: Task, decided: bool, woken: bool) {
    && x.retries <= 1 && (x.retries == 1 ==> decided)
    && (x.requests == 2 || (x.place.Sending? && x.retries == 1) ==> woken)
    && match x.place
       case Queued | Configuring | Preparing => x.requests == 0 && x.retries == 0
       case Sending => x.requests == x.retries
       case Rechecking | Entering | Awaiting(_) => x.requests == x.retries + 1
       case BackingOff => x.requests == 1 && x.retries == 1
       case Ending(_) | Closing(_) | Done(_) => x.requests <= 2
  }

  predicate SendsAt(w: Worker, t: nat, decided: bool, woken: bool) {
    if t < |w.tasks| then
      Sends(w.tasks[t], decided, woken) && Count(w.log, Request(t)) == w.tasks[t].requests
    else Count(w.log, Request(t)) == 0
  }

  lemma SendsStay(x: Task, decided: bool, woken: bool, later: bool, wakes: bool)
    requires Sends(x, decided, woken) && (decided ==> later) && (woken ==> wakes)
    ensures Sends(x, later, wakes)
  {
  }

  /** A step of the prompt's own, but for its reply. */
  lemma OwnSends(w: Worker, step: Step, decided: bool, woken: bool)
    requires Enabled(w, step) && !step.Accept? && !step.Stop? && !step.Decide? && !step.Wake?
    requires Sends(w.tasks[step.i], decided, woken)
    ensures Sends(Next(w, step).tasks[step.i], decided, woken)
    ensures Next(w, step).tasks[step.i].requests == w.tasks[step.i].requests + if step.Send? then 1 else 0
  {
  }

  lemma DecideSends(w: Worker, step: Step, decided: bool, woken: bool)
    requires Enabled(w, step) && (step.Decide? || step.Wake?)
    requires Sends(w.tasks[step.i], decided, woken)
    ensures
      var x, y := w.tasks[step.i], Next(w, step).tasks[step.i];
      && y.requests == x.requests
      && Sends(y, decided || (step == Decide(step.i, false) && x.response == Some(MAY_RETRY)),
               woken || (step == Wake(step.i, false, false) && decided))
  {
  }

  lemma SendsNext(w: Worker, step: Step, t: nat, decided: bool, woken: bool, later: bool, wakes: bool)
    requires Enabled(w, step) && t < |w.tasks| && Sends(w.tasks[t], decided, woken)
    requires decided ==> later
    requires woken ==> wakes
    requires step == Decide(t, false) && w.tasks[t].response == Some(MAY_RETRY) ==> later
    requires step == Wake(t, false, false) && decided ==> wakes
    ensures t < |Next(w, step).tasks| && Sends(Next(w, step).tasks[t], later, wakes)
    ensures Next(w, step).tasks[t].requests == w.tasks[t].requests + if step == Send(t) then 1 else 0
  {
    var y := Next(w, step).tasks[t];
    if step.Accept? || step.Stop? || step.i != t {
      OthersUntouched(w, step, t);
      SendsStay(y, decided, woken, later, wakes);
    } else if step.Decide? || step.Wake? {
      DecideSends(w, step, decided, woken);
      SendsStay(y, decided || (step == Decide(t, false) && w.tasks[t].response == Some(MAY_RETRY)),
                woken || (step == Wake(t, false, false) && decided), later, wakes);
    } else {
      OwnSends(w, step, decided, woken);
      SendsStay(y, decided, woken, later, wakes);
    }
  }

  lemma AddedRequest(w: Worker, step: Step, t: nat)
    requires Enabled(w, step)
    ensures step == Send(t) ==> Added(w, step) == [Request(t)]
    ensures step != Send(t) ==> forall k :: 0 <= k < |Added(w, step)| ==> Added(w, step)[k] != Request(t)
  {
  }

  lemma RequestsAdded(w: Worker, step: Step, t: nat)
    requires Enabled(w, step)
    ensures Count(Next(w, step).log, Request(t)) == Count(w.log, Request(t)) + if step == Send(t) then 1 else 0
  {
    var more := Added(w, step);
    AddedRequest(w, step, t);
    CountMore(w.log, more, Request(t));
  }

  /**
   * In every run a prompt sends at most two requests; the second only after a failure that may be tried again and
   * showed nothing, and a pause in which neither a stop nor an update was seen.
   */
  lemma {:induction false} SentTwice(ws: seq<Worker>, steps: seq<Step>, n: nat, t: nat)
    requires IsRun(ws, steps) && n < |ws| && ws[n].stops < GENERATIONS
    ensures SendsAt(ws[n], t, RetryDecided(steps[..n], t), RetryWoken(steps[..n], t))
    ensures Count(ws[n].log, Request(t)) <= 2
    ensures Count(ws[n].log, Request(t)) == 2 ==> RetryWoken(steps[..n], t)
  {
    if n > 0 {
      var w, step, past := ws[n - 1], steps[n - 1], steps[..n - 1];
      assert StepAt(ws, steps, n - 1);
      StopsGrow(w, step, ws[n]);
      SentTwice(ws, steps, n - 1, t);
      RunTold(ws, steps, n - 1);
      assert TaskToldAt(w, past, t);
      assert past + [step] == steps[..n];
      DecidedLonger(past, step, t);
      RequestsAdded(w, step, t);
      if t < |w.tasks| {
        SendsNext(w, step, t, RetryDecided(past, t), RetryWoken(past, t),
                  RetryDecided(steps[..n], t), RetryWoken(steps[..n], t));
      }
    }
  }

  /* Withdrawing. */

  /** The prompt looked right after sending, and a stop had come. */
  predicate WithdrawnAt(steps: seq<Step>, t: nat, k: nat)
    requires k < |steps|
  {
    steps[k] == Recheck(t) && StoppedBy(steps[..k], t)
  }

  ghost predicate Withdrawn(steps: seq<Step>, t: nat) {
    exists k: nat :: k < |steps| && WithdrawnAt(steps, t, k)
  }

  lemma WithdrawnNext(past: seq<Step>, x: Step, t: nat)
    ensures Withdrawn(past + [x], t) <==> Withdrawn(past, t) || (x == Recheck(t) && StoppedBy(past, t))
  {
    var more := past + [x];
    assert more[..|past|] == past && more[|past|] == x;
    forall k: nat | k < |past| ensures WithdrawnAt(more, t, k) <==> WithdrawnAt(past, t, k) {
      assert more[..k] == past[..k];
    }
    if x == Recheck(t) && StoppedBy(past, t) {
      assert WithdrawnAt(more, t, |past|);
    }
  }

  lemma WithdrawalAdded(w: Worker, step: Step, t: nat)
    requires Enabled(w, step)
    ensures CancelRequest(t) in Next(w, step).log
      <==> CancelRequest(t) in w.log || (step == Recheck(t) && Changed(w, w.tasks[t]))
  {
    var more := Added(w, step);
    AddedIs(w, step);
    if step == Recheck(t) && Changed(w, w.tasks[t]) {
      assert more == [CancelRequest(t), Cancel];
      assert more[0] in Next(w, step).log;
    } else {
      assert CancelRequest(t) !in more;
    }
  }

  /** In every run the request of a prompt is withdrawn exactly when a stop was seen right after sending it. */
  lemma {:induction false} WithdrawnTold(ws: seq<Worker>, steps: seq<Step>, n: nat, t: nat)
    requires IsRun(ws, steps) && n < |ws| && ws[n].stops < GENERATIONS
    ensures CancelRequest(t) in ws[n].log <==> Withdrawn(steps[..n], t)
  {
    if n > 0 {
      var w, step, past := ws[n - 1], steps[n - 1], steps[..n - 1];
      assert StepAt(ws, steps, n - 1);
      StopsGrow(w, step, ws[n]);
      WithdrawnTold(ws, steps, n - 1, t);
      RunTold(ws, steps, n - 1);
      assert TaskToldAt(w, past, t);
      assert past + [step] == steps[..n];
      WithdrawnNext(past, step, t);
      WithdrawalAdded(w, step, t);
      if step == Recheck(t) {
        StopsSince(past, t);
        StoppedIsChanged(w, t);
      }
    }
  }
}
