/** A cancellation reaches every prompt that waited when it was asked for, however late the prompt is dispatched. */
module PromptCancels {
  import opened Results
  import opened Transcript
  import opened Cache
  import opened PromptQueues
  import opened PromptLaws

  /** Step `k` cancels the prompts of session `id`, and prompt `c` was registered before. */
  ghost predicate CancelledAt(steps: seq<Step>, read: Reader, id: Id, c: Cmid, k: nat)
    requires k < |steps|
  {
    steps[k] == Cancelling(id) && c.Own? && c.n < Run(steps[..k], read).state.nextCmid
  }

  /** The prompt waited when its session was cancelled. */
  ghost predicate WasCancelled(steps: seq<Step>, read: Reader, id: Id, c: Cmid) {
    exists k: nat :: k < |steps| && CancelledAt(steps, read, id, c, k)
  }

  lemma CancelledLonger(steps: seq<Step>, read: Reader, id: Id, c: Cmid)
    requires steps != []
    ensures
      var last := |steps| - 1;
      WasCancelled(steps, read, id, c)
      <==> WasCancelled(steps[..last], read, id, c) || CancelledAt(steps, read, id, c, last)
  {
    var last := |steps| - 1;
    var init := steps[..last];
    forall k: nat | k < last ensures CancelledAt(steps, read, id, c, k) <==> CancelledAt(init, read, id, c, k) {
      assert init[..k] == steps[..k];
    }
    if WasCancelled(steps, read, id, c) && !CancelledAt(steps, read, id, c, last) {
      var k: nat :| k < |steps| && CancelledAt(steps, read, id, c, k);
      assert k < last && CancelledAt(init, read, id, c, k);
    }
  }

  /** Numbers are only handed out upwards. */
  lemma StepNumbers(s: State, step: Step, read: Reader)
    ensures Apply(s, step, read).state.nextCmid >= s.nextCmid
  {
    match step
    case CatchingUp(id, fetched) => CatchUpNumbers(s, id, fetched, read);
    case Listing(list, order) => DeletedQueue(s.(sessions := Adopt(s.sessions, list)), order, "");
    case Registering(_) =>
    case Failing(_, _, _) =>
    case Refusing(_, _) =>
    case Cancelling(_) =>
    case Living(_, _) =>
    case Other(_, _) =>
  }

  lemma CatchUpNumbers(s: State, id: Id, fetched: Option<Snapshot>, read: Reader)
    ensures FinishCatchUp(s, id, fetched, read).state.nextCmid == s.nextCmid
  {
    CaughtUpElsewhere(s, id, fetched, read, id + "x");
  }

  lemma {:induction false} NumbersRise(steps: seq<Step>, read: Reader, k: nat)
    requires k <= |steps|
    ensures Run(steps[..k], read).state.nextCmid <= Run(steps, read).state.nextCmid
    decreases |steps|
  {
    if k < |steps| {
      var init := steps[..|steps| - 1];
      NumbersRise(init, read, k);
      assert init[..k] == steps[..k];
      StepNumbers(Run(init, read).state, steps[|steps| - 1], read);
    } else {
      assert steps[..k] == steps;
    }
  }

  /** A prompt just registered was never cancelled. */
  lemma FreshUncancelled(steps: seq<Step>, read: Reader, id: Id)
    ensures !WasCancelled(steps, read, id, Own(Run(steps, read).state.nextCmid))
  {
    forall k: nat | k < |steps| ensures Run(steps[..k], read).state.nextCmid <= Run(steps, read).state.nextCmid {
      NumbersRise(steps, read, k);
    }
  }

  /** Each prompt of `r` is one of `q` with the same flag. */
  predicate FlagsKept(q: seq<PendingPrompt>, r: seq<PendingPrompt>) {
    forall i :: 0 <= i < |r| ==> FlagFrom(q, r[i])
  }

  predicate FlagFrom(q: seq<PendingPrompt>, p: PendingPrompt) {
    exists j :: 0 <= j < |q| && q[j].cmid == p.cmid && q[j].cancelRequested == p.cancelRequested
  }

  lemma FlagsSame(q: seq<PendingPrompt>)
    ensures FlagsKept(q, q)
  {
    forall i | 0 <= i < |q| ensures FlagFrom(q, q[i]) {
    }
  }

  lemma FlagsJoin(q: seq<PendingPrompt>, r: seq<PendingPrompt>, t: seq<PendingPrompt>)
    requires FlagsKept(q, r) && FlagsKept(r, t)
    ensures FlagsKept(q, t)
  {
    forall i | 0 <= i < |t| ensures FlagFrom(q, t[i]) {
      assert FlagFrom(r, t[i]);
      var j :| 0 <= j < |r| && r[j].cmid == t[i].cmid && r[j].cancelRequested == t[i].cancelRequested;
      assert FlagFrom(q, r[j]);
    }
  }

  lemma SettleFlags(s: State, other: Id, i: nat, outcome: PromptOutcome, id: Id)
    ensures FlagsKept(Queue(s, id), Queue(Settle(s, other, i, outcome).state, id))
  {
    var q := Queue(s, id);
    FlagsSame(q);
    if other == id && i < |q| {
      var r := q[..i] + q[i + 1..];
      forall k | 0 <= k < |r| ensures FlagFrom(q, r[k]) {
        assert r[k] == q[if k < i then k else k + 1];
      }
    }
  }

  lemma MarkFlags(s: State, other: Id, e: Envelope, id: Id)
    ensures FlagsKept(Queue(s, id), Queue(MarkDispatched(s, other, e).state, id))
  {
    var q := Queue(s, id);
    FlagsSame(q);
    if other == id && e.cmid.Some? && FindCmid(q, e.cmid.value) < |q| {
      var k := FindCmid(q, e.cmid.value);
      var r := q[k := q[k].(started := true)];
      forall i | 0 <= i < |r| ensures FlagFrom(q, r[i]) {
        assert r[i].cmid == q[i].cmid && r[i].cancelRequested == q[i].cancelRequested;
      }
    }
  }

  lemma CorrelateFlags(s: State, other: Id, e: Envelope, read: Reader, id: Id)
    ensures FlagsKept(Queue(s, id), Queue(Correlate(s, other, e, read).state, id))
  {
    var t := MarkDispatched(s, other, e).state;
    MarkFlags(s, other, e, id);
    EventFlags(t, other, e.event, read, id);
    FlagsJoin(Queue(s, id), Queue(t, id), Queue(Correlate(s, other, e, read).state, id));
  }

  lemma EventFlags(s: State, other: Id, e: Event, read: Reader, id: Id)
    ensures FlagsKept(Queue(s, id), Queue(CorrelateEvent(s, other, e, read).state, id))
  {
    FlagsSame(Queue(s, id));
    if e.Updated? && e.update.PromptCancelled? {
      SettleFlags(s, other, FindCmid(Queue(s, other), e.update.cmid), Stopped(Cancelled), id);
    } else if e.TurnEnd? {
      SettleFlags(s, other, FirstStarted(Queue(s, other)), TurnOutcome(read, e.stopReason), id);
    } else if e.Lifecycle? && IdleStopReason(e.status).Some? {
      SettleFlags(s, other, FirstStarted(Queue(s, other)), Stopped(IdleStopReason(e.status).value), id);
    }
  }

  lemma {:induction false} CorrelateAllFlags(s: State, other: Id, events: seq<Envelope>, read: Reader, id: Id)
    ensures FlagsKept(Queue(s, id), Queue(CorrelateAll(s, other, events, read).state, id))
  {
    if events == [] {
      FlagsSame(Queue(s, id));
    } else {
      var before := CorrelateAll(s, other, events[..|events| - 1], read).state;
      var after := Correlate(before, other, events[|events| - 1], read).state;
      CorrelateAllFlags(s, other, events[..|events| - 1], read, id);
      CorrelateFlags(before, other, events[|events| - 1], read, id);
      FlagsJoin(Queue(s, id), Queue(before, id), Queue(after, id));
    }
  }

  lemma IdleFlags(s: State, other: Id, id: Id)
    ensures FlagsKept(Queue(s, id), Queue(SettleIdle(s, other).state, id))
  {
    FlagsSame(Queue(s, id));
    if other in s.sessions && s.sessions[other].meta.Some? {
      var reason := IdleStopReason(s.sessions[other].meta.value.status);
      if reason.Some? {
        SettleFlags(s, other, FirstStarted(Queue(s, other)), Stopped(reason.value), id);
      }
    }
  }

  lemma CatchUpFlags(s: State, other: Id, fetched: Option<Snapshot>, read: Reader, id: Id)
    ensures FlagsKept(Queue(s, id), Queue(FinishCatchUp(s, other, fetched, read).state, id))
  {
    FlagsSame(Queue(s, id));
    if other in s.sessions && CompleteCatchUp(s.sessions[other], fetched).Some? {
      var r := CompleteCatchUp(s.sessions[other], fetched).value;
      var t := s.(sessions := s.sessions[other := r.session]);
      var c := CorrelateAll(t, other, r.hydrated, read).state;
      CorrelateAllFlags(t, other, r.hydrated, read, id);
      IdleFlags(c, other, id);
      FlagsJoin(Queue(t, id), Queue(c, id), Queue(SettleIdle(c, other).state, id));
    }
  }

  /** Nothing but a registration and a cancellation of the session touches the flags of its prompts. */
  lemma StepFlags(s: State, step: Step, read: Reader, id: Id)
    requires step != Registering(id) && step != Cancelling(id)
    ensures FlagsKept(Queue(s, id), Queue(Apply(s, step, read).state, id))
  {
    FlagsSame(Queue(s, id));
    match step
    case Failing(other, cmid, error) => SettleFlags(s, other, FindCmid(Queue(s, other), cmid), Failed(error), id);
    case Refusing(other, error) =>
      SettleFlags(s.(deleting := s.deleting - {other}), other, FirstQueued(Queue(s, other)), Failed(error), id);
    case Living(other, e) => LiveFlags(s, other, e, read, id);
    case CatchingUp(other, fetched) => CatchUpFlags(s, other, fetched, read, id);
    case Listing(list, order) => DeletedQueue(s.(sessions := Adopt(s.sessions, list)), order, id);
    case Registering(_) =>
    case Cancelling(_) =>
    case Other(_, _) =>
  }

  lemma LiveFlags(s: State, other: Id, e: Envelope, read: Reader, id: Id)
    ensures FlagsKept(Queue(s, id), Queue(HandleLiveEvent(s, other, e, read).state, id))
  {
    var session := SessionOf(s, other);
    if IsDuplicate(session, e) {
      MarkFlags(s, other, e, id);
    } else {
      CorrelateFlags(s.(sessions := s.sessions[other := ApplyLive(session, e)]), other, e, read, id);
    }
  }

  /** A waiting prompt is flagged, in every run, exactly when its session was cancelled after it was registered. */
  ghost predicate FlagsTold(steps: seq<Step>, read: Reader, id: Id) {
    var q := Queue(Run(steps, read).state, id);
    forall i :: 0 <= i < |q| ==> (q[i].cancelRequested <==> WasCancelled(steps, read, id, q[i].cmid))
  }

  lemma {:induction false} FlagsAreTold(steps: seq<Step>, read: Reader, id: Id)
    ensures FlagsTold(steps, read, id)
  {
    if steps != [] {
      var init, last := steps[..|steps| - 1], steps[|steps| - 1];
      var s, t := Run(init, read).state, Run(steps, read).state;
      FlagsAreTold(init, read, id);
      forall i | 0 <= i < |Queue(t, id)|
        ensures Queue(t, id)[i].cancelRequested <==> WasCancelled(steps, read, id, Queue(t, id)[i].cmid)
      {
        CancelledLonger(steps, read, id, Queue(t, id)[i].cmid);
        if last == Cancelling(id) {
          QueueNumbered(init, read, id, i);
        } else if last == Registering(id) {
          FreshUncancelled(init, read, id);
        } else {
          StepFlags(s, last, read, id);
          assert FlagFrom(Queue(s, id), Queue(t, id)[i]);
        }
      }
    }
  }

  /** A waiting prompt is one of this bridge's own, registered before. */
  lemma QueueNumbered(steps: seq<Step>, read: Reader, id: Id, i: nat)
    requires i < |Queue(Run(steps, read).state, id)|
    ensures
      var s := Run(steps, read).state;
      Queue(s, id)[i].cmid.Own? && Queue(s, id)[i].cmid.n < s.nextCmid
  {
    EveryPromptOnce(steps, read);
    var s := Run(steps, read).state;
    assert Here(s.prompts, id, i, Queue(s, id)[i].cmid);
    assert IsPending(s.prompts, Queue(s, id)[i].cmid);
  }

  /**
   * When the daemon dispatches a prompt, the turn is to be stopped exactly when the prompt still waits and its session
   * was cancelled since it was registered.
   */
  lemma CancelRouted(steps: seq<Step>, read: Reader, id: Id, e: Envelope)
    ensures
      var s := Run(steps, read).state;
      HandleLiveEvent(s, id, e, read).cancel <==>
        && e.cmid.Some? && (exists i :: 0 <= i < |Queue(s, id)| && Queue(s, id)[i].cmid == e.cmid.value)
        && WasCancelled(steps, read, id, e.cmid.value)
  {
    FlagsAreTold(steps, read, id);
    var q := Queue(Run(steps, read).state, id);
    if e.cmid.Some? {
      var k := FindCmid(q, e.cmid.value);
      assert k < |q| ==> q[k].cmid == e.cmid.value;
    }
  }
}
