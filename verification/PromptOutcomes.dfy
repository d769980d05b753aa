/** What every outcome given to a prompt says of the event that settled it. */
module PromptOutcomes {
  import opened Results
  import opened Transcript
  import opened Cache
  import opened PromptQueues
  import opened PromptLaws

  /* One event of the transcript. */

  /** `o` is the outcome of the turn that event `e` ends. */
  predicate EndsWith(e: Event, read: Reader, o: PromptOutcome) {
    match e
    case TurnEnd(words) => if read(words).Some? then o == Stopped(read(words).value) else o == Failed(words)
    case Lifecycle(status, _) => ReportsEnd(status, o)
    case _ => false
  }

  /** A session seen idle ended its turn; one that is gone was cancelled; one that starts or works ended nothing. */
  predicate ReportsEnd(status: Status, o: PromptOutcome) {
    match status
    case Running => o == Stopped(EndTurn)
    case Exited | Crashed | Interrupted => o == Stopped(Cancelled)
    case Starting | Busy => false
  }

  /** The prompt at `i` was dispatched, before or by the echo that `e` carries. */
  predicate Dispatched(q: seq<PendingPrompt>, e: Envelope, i: nat)
    requires i < |q|
  {
    q[i].started || (e.cmid == Some(q[i].cmid) && forall k :: 0 <= k < i ==> q[k].cmid != q[i].cmid)
  }

  /** Prompt `c` is the first dispatched one. */
  ghost predicate FirstDispatched(q: seq<PendingPrompt>, e: Envelope, c: Cmid) {
    exists i: nat :: i < |q| && q[i].cmid == c && Dispatched(q, e, i) && forall k: nat :: k < i ==> !Dispatched(q, e, k)
  }

  predicate Waits(q: seq<PendingPrompt>, c: Cmid) {
    exists i :: 0 <= i < |q| && q[i].cmid == c
  }

  /** Event `e` settles `x` in a session with prompts `q`: it withdraws the prompt, or ends the turn of the first. */
  ghost predicate SettlesEvent(q: seq<PendingPrompt>, e: Envelope, read: Reader, x: Settlement) {
    || (e.event == Updated(PromptCancelled(x.cmid)) && Waits(q, x.cmid) && x.outcome == Stopped(Cancelled))
    || (EndsWith(e.event, read, x.outcome) && FirstDispatched(q, e, x.cmid))
  }

  lemma MarkedAt(q: seq<PendingPrompt>, e: Envelope, r: seq<PendingPrompt>)
    requires e.cmid.Some?
    requires
      var i := FindCmid(q, e.cmid.value);
      r == if i == |q| then q else q[i := q[i].(started := true)]
    ensures |r| == |q|
    ensures forall k: nat :: k < |q| ==> r[k].cmid == q[k].cmid && (r[k].started <==> Dispatched(q, e, k))
  {
  }

  lemma MarkedQueue(s: State, id: Id, e: Envelope)
    ensures
      var q, r := Queue(s, id), Queue(MarkDispatched(s, id, e).state, id);
      |r| == |q| && forall k: nat :: k < |q| ==> r[k].cmid == q[k].cmid && (r[k].started <==> Dispatched(q, e, k))
  {
    MarkQueue(s, id, e);
    if e.cmid.Some? {
      MarkedAt(Queue(s, id), e, Queue(MarkDispatched(s, id, e).state, id));
    }
  }

  lemma FirstStartedIs(q: seq<PendingPrompt>, i: nat)
    requires i < |q| && q[i].started && forall k: nat :: k < i ==> !q[k].started
    ensures FirstStarted(q) == i
  {
  }

  lemma FirstQueuedIs(q: seq<PendingPrompt>, i: nat)
    requires i < |q| && !q[i].started && forall k: nat :: k < i ==> q[k].started
    ensures FirstQueued(q) == i
  {
  }

  /** The first started prompt of the marked queue is the first dispatched one. */
  lemma FirstIs(q: seq<PendingPrompt>, e: Envelope, r: seq<PendingPrompt>, c: Cmid)
    requires |r| == |q|
    requires forall k: nat :: k < |q| ==> r[k].cmid == q[k].cmid && (r[k].started <==> Dispatched(q, e, k))
    ensures FirstDispatched(q, e, c) <==> FirstStarted(r) < |r| && r[FirstStarted(r)].cmid == c
  {
    var f := FirstStarted(r);
    if FirstDispatched(q, e, c) {
      var i: nat :| i < |q| && q[i].cmid == c && Dispatched(q, e, i) && forall k: nat :: k < i ==> !Dispatched(q, e, k);
      FirstStartedIs(r, i);
    }
    if f < |r| && r[f].cmid == c {
      assert Dispatched(q, e, f);
      forall k: nat | k < f ensures !Dispatched(q, e, k) {
        assert !r[k].started;
      }
    }
  }

  lemma WaitsIs(q: seq<PendingPrompt>, r: seq<PendingPrompt>, c: Cmid)
    requires |r| == |q| && forall k: nat :: k < |q| ==> r[k].cmid == q[k].cmid
    ensures Waits(q, c) <==> FindCmid(r, c) < |r|
  {
    if Waits(q, c) {
      var i :| 0 <= i < |q| && q[i].cmid == c;
      assert r[i].cmid == c;
    }
    if FindCmid(r, c) < |r| {
      assert q[FindCmid(r, c)].cmid == c;
    }
  }

  lemma SettleSays(s: State, id: Id, i: nat, outcome: PromptOutcome)
    ensures
      var q := Queue(s, id);
      Settle(s, id, i, outcome).settled == if i >= |q| then None else Some(Settlement(q[i].cmid, outcome))
  {
  }

  /** One event settles `x` exactly when it withdraws its prompt or ends its turn, with the outcome the event names. */
  lemma EventSettles(s: State, id: Id, e: Envelope, read: Reader, x: Settlement)
    ensures Correlate(s, id, e, read).settled == Some(x) <==> SettlesEvent(Queue(s, id), e, read, x)
  {
    var q, t := Queue(s, id), MarkDispatched(s, id, e).state;
    var r := Queue(t, id);
    MarkedQueue(s, id, e);
    FirstIs(q, e, r, x.cmid);
    if e.event.Updated? && e.event.update.PromptCancelled? {
      WaitsIs(q, r, e.event.update.cmid);
      SettleSays(t, id, FindCmid(r, e.event.update.cmid), Stopped(Cancelled));
    } else if e.event.TurnEnd? {
      SettleSays(t, id, FirstStarted(r), TurnOutcome(read, e.event.stopReason));
    } else if e.event.Lifecycle? && IdleStopReason(e.event.status).Some? {
      SettleSays(t, id, FirstStarted(r), Stopped(IdleStopReason(e.event.status).value));
    }
  }

  /* An idle session, after a catch-up. */

  /** Prompt `c` is the first started one. */
  ghost predicate FirstRunning(q: seq<PendingPrompt>, c: Cmid) {
    exists i: nat :: i < |q| && q[i].cmid == c && q[i].started && forall k: nat :: k < i ==> !q[k].started
  }

  /** The listed status of the session ended the turn of its first started prompt. */
  ghost predicate SettlesIdle(s: State, id: Id, x: Settlement) {
    && id in s.sessions && s.sessions[id].meta.Some?
    && ReportsEnd(s.sessions[id].meta.value.status, x.outcome)
    && FirstRunning(Queue(s, id), x.cmid)
  }

  lemma FirstRunningIs(q: seq<PendingPrompt>, c: Cmid)
    ensures FirstRunning(q, c) <==> FirstStarted(q) < |q| && q[FirstStarted(q)].cmid == c
  {
    var f := FirstStarted(q);
    if FirstRunning(q, c) {
      var i: nat :| i < |q| && q[i].cmid == c && q[i].started && forall k: nat :: k < i ==> !q[k].started;
      FirstStartedIs(q, i);
    }
  }

  /** After a catch-up, a prompt is settled exactly when its session is no longer working on it. */
  lemma IdleSettles(s: State, id: Id, x: Settlement)
    ensures SettleIdle(s, id).settled == Some(x) <==> SettlesIdle(s, id, x)
  {
    FirstRunningIs(Queue(s, id), x.cmid);
    if id in s.sessions && s.sessions[id].meta.Some? && IdleStopReason(s.sessions[id].meta.value.status).Some? {
      SettleSays(s, id, FirstStarted(Queue(s, id)),
                 Stopped(IdleStopReason(s.sessions[id].meta.value.status).value));
    }
  }

  /** The `k`-th hydrated event settles `x`. */
  ghost predicate SettlesHydrated(s: State, id: Id, events: seq<Envelope>, k: nat, read: Reader, x: Settlement)
    requires k < |events|
  {
    SettlesEvent(Queue(CorrelateAll(s, id, events[..k], read).state, id), events[k], read, x)
  }

  /** One of the first `n` hydrated events settles `x`. */
  ghost predicate SettledAmong(s: State, id: Id, events: seq<Envelope>, n: nat, read: Reader, x: Settlement)
    requires n <= |events|
  {
    exists k: nat :: k < n && SettlesHydrated(s, id, events, k, read, x)
  }

  lemma AmongLonger(s: State, id: Id, events: seq<Envelope>, n: nat, read: Reader, x: Settlement)
    requires n <= |events|
    ensures SettledAmong(s, id, events[..n], n, read, x) <==> SettledAmong(s, id, events, n, read, x)
  {
    var init := events[..n];
    forall k: nat | k < n
      ensures SettlesHydrated(s, id, events, k, read, x) <==> SettlesHydrated(s, id, init, k, read, x)
    {
      assert init[..k] == events[..k];
    }
  }

  lemma AmongNext(s: State, id: Id, events: seq<Envelope>, n: nat, read: Reader, x: Settlement)
    requires n < |events|
    ensures SettledAmong(s, id, events, n + 1, read, x)
      <==> SettledAmong(s, id, events, n, read, x) || SettlesHydrated(s, id, events, n, read, x)
  {
    if SettledAmong(s, id, events, n + 1, read, x) && !SettlesHydrated(s, id, events, n, read, x) {
      var k: nat :| k < n + 1 && SettlesHydrated(s, id, events, k, read, x);
      assert k < n;
    }
  }

  lemma {:induction false} HydratedSettle(s: State, id: Id, events: seq<Envelope>, read: Reader, x: Settlement)
    ensures x in CorrelateAll(s, id, events, read).settled <==> SettledAmong(s, id, events, |events|, read, x)
  {
    if events != [] {
      var last := |events| - 1;
      var before := CorrelateAll(s, id, events[..last], read);
      HydratedSettle(s, id, events[..last], read, x);
      EventSettles(before.state, id, events[last], read, x);
      AmongLonger(s, id, events, last, read, x);
      AmongNext(s, id, events, last, read, x);
    }
  }

  /* Refusals. */

  /** No deletion waits for an answer, and the prompt is the first that was not dispatched. */
  ghost predicate SettlesRefused(s: State, id: Id, error: string, x: Settlement) {
    && !(id in s.deleting && s.deleting[id] > 0)
    && x.outcome == Failed(error)
    && exists i: nat ::
         && i < |Queue(s, id)| && Queue(s, id)[i].cmid == x.cmid && !Queue(s, id)[i].started
         && forall k: nat :: k < i ==> Queue(s, id)[k].started
  }

  /** A refusal fails, with its words, exactly the first prompt that was not dispatched, unless a deletion waits. */
  lemma RefusalSettles(s: State, id: Id, error: string, x: Settlement)
    ensures FailRefused(s, id, error).settled == Some(x) <==> SettlesRefused(s, id, error, x)
  {
    var q := Queue(s, id);
    var f := FirstQueued(q);
    SettleSays(s.(deleting := s.deleting - {id}), id, f, Failed(error));
    if SettlesRefused(s, id, error, x) {
      var i: nat :| i < |q| && q[i].cmid == x.cmid && !q[i].started && forall k: nat :: k < i ==> q[k].started;
      FirstQueuedIs(q, i);
    }
  }

  /** A prompt whose command failed is failed with the words of the error. */
  lemma FailureSettles(s: State, id: Id, cmid: Cmid, error: string, x: Settlement)
    ensures FailPrompt(s, id, cmid, error).settled == Some(x)
      <==> Waits(Queue(s, id), cmid) && x == Settlement(cmid, Failed(error))
  {
    WaitsIs(Queue(s, id), Queue(s, id), cmid);
    SettleSays(s, id, FindCmid(Queue(s, id), cmid), Failed(error));
  }

  /* Deleted sessions. */

  /** Session `id` is deleted, and its prompt is told whether that was asked for. */
  ghost predicate SettlesDeleted(s: State, order: seq<Id>, id: Id, x: Settlement) {
    && id in order && Waits(Queue(s, id), x.cmid)
    && x.outcome == if id in s.deleting then Stopped(Cancelled) else Failed("this session was deleted in Cowboy")
  }

  lemma OrphansAre(q: seq<PendingPrompt>, outcome: PromptOutcome, x: Settlement)
    ensures x in Orphans(q, outcome) <==> Waits(q, x.cmid) && x.outcome == outcome
  {
    var r := Orphans(q, outcome);
    if x in r {
      var i :| 0 <= i < |r| && r[i] == x;
      assert q[i].cmid == x.cmid;
    }
    if Waits(q, x.cmid) && x.outcome == outcome {
      var i :| 0 <= i < |q| && q[i].cmid == x.cmid;
      assert r[i] == x;
    }
  }

  lemma {:induction false} StillThere(s: State, order: seq<Id>, id: Id)
    requires id !in order
    ensures
      var t := DeleteAll(s, order).state;
      Queue(t, id) == Queue(s, id) && (id in t.deleting <==> id in s.deleting)
  {
    if order != [] {
      StillThere(s, order[..|order| - 1], id);
    }
  }

  /** Exactly the prompts of the deleted sessions are settled: cancelled when asked for, failed otherwise. */
  lemma {:induction false} DeletionSettles(s: State, order: seq<Id>, x: Settlement)
    requires forall i, j :: 0 <= i < j < |order| ==> order[i] != order[j]
    ensures x in DeleteAll(s, order).settled <==> exists id :: SettlesDeleted(s, order, id, x)
  {
    if order != [] {
      var init, last := order[..|order| - 1], order[|order| - 1];
      assert order == init + [last];
      DeletionSettles(s, init, x);
      StillThere(s, init, last);
      var t := DeleteAll(s, init).state;
      OrphansAre(Queue(t, last), DeletedOutcome(last in t.deleting), x);
      assert x in Orphans(Queue(t, last), DeletedOutcome(last in t.deleting)) <==> SettlesDeleted(s, order, last, x);
      forall id | id in init ensures SettlesDeleted(s, order, id, x) <==> SettlesDeleted(s, init, id, x) {
      }
    }
  }

  /** A session goes when no open entry lists it, and it was listed, or is, or its deletion was asked for. */
  ghost predicate Leaves(s: State, list: seq<Listed>, id: Id) {
    && (forall l :: l in list && l.id == id ==> l.meta.closing)
    && (id in s.sessions || exists l :: l in list && l.id == id)
    && (id in s.deleting || (exists l :: l in list && l.id == id) || (id in s.sessions && s.sessions[id].meta.Some?))
  }

  lemma {:induction false} AdoptIs(sessions: map<Id, Session>, list: seq<Listed>, id: Id)
    ensures id in Adopt(sessions, list) <==> id in sessions || exists l :: l in list && l.id == id
    ensures id in Adopt(sessions, list) ==>
      (Adopt(sessions, list)[id].meta.Some? <==>
        (exists l :: l in list && l.id == id) || (id in sessions && sessions[id].meta.Some?))
  {
    if list != [] {
      var init, last := list[..|list| - 1], list[|list| - 1];
      assert list == init + [last];
      AdoptIs(sessions, init, id);
    }
  }

  lemma DeletedIff(s: State, list: seq<Listed>, id: Id)
    ensures id in Deleted(s, list) <==> Leaves(s, list, id)
  {
    AdoptIs(s.sessions, list, id);
  }

  /** What is kept of the sessions: those that do not leave, and are listed, were, or have a client. */
  lemma SessionsAfterList(s: State, list: seq<Listed>, order: seq<Id>, id: Id)
    requires IsOrder(order, Deleted(s, list))
    ensures id in ApplyList(s, list, order).state.sessions <==>
      && !Leaves(s, list, id)
      && ((exists l :: l in list && l.id == id)
          || (id in s.sessions && (s.sessions[id].meta.Some? || s.sessions[id].attached)))
  {
    var t := s.(sessions := Adopt(s.sessions, list));
    AdoptIs(s.sessions, list, id);
    if id in t.sessions {
      AdoptAttached(s.sessions, list, id);
    }
    DeletedIff(s, list, id);
    DeletedSessions(t, order, id);
  }

  lemma {:induction false} DeletedSessions(s: State, order: seq<Id>, id: Id)
    ensures
      var t := DeleteAll(s, order).state;
      && (id in t.sessions <==> id in s.sessions && id !in order)
      && (id in t.sessions ==> t.sessions[id] == s.sessions[id])
  {
    if order != [] {
      DeletedSessions(s, order[..|order| - 1], id);
      assert order == order[..|order| - 1] + [order[|order| - 1]];
    }
  }

  lemma {:induction false} AdoptAttached(sessions: map<Id, Session>, list: seq<Listed>, id: Id)
    requires id in Adopt(sessions, list)
    ensures Adopt(sessions, list)[id].attached == (id in sessions && sessions[id].attached)
  {
    if list != [] {
      var init := list[..|list| - 1];
      if id in Adopt(sessions, init) {
        AdoptAttached(sessions, init, id);
      } else {
        AdoptIs(sessions, init, id);
      }
    }
  }

  /* Every step of every run. */

  /** The `k`-th hydrated event settled `x`, or the session's status did after all of them. */
  ghost predicate SettlesCaughtUp(s: State, id: Id, fetched: Option<Snapshot>, read: Reader, x: Settlement) {
    && id in s.sessions && CompleteCatchUp(s.sessions[id], fetched).Some?
    && var r := CompleteCatchUp(s.sessions[id], fetched).value;
       var t := s.(sessions := s.sessions[id := r.session]);
       || SettledAmong(t, id, r.hydrated, |r.hydrated|, read, x)
       || SettlesIdle(CorrelateAll(t, id, r.hydrated, read).state, id, x)
  }

  lemma CatchUpSettles(s: State, id: Id, fetched: Option<Snapshot>, read: Reader, x: Settlement)
    ensures x in FinishCatchUp(s, id, fetched, read).settled <==> SettlesCaughtUp(s, id, fetched, read, x)
  {
    if id in s.sessions && CompleteCatchUp(s.sessions[id], fetched).Some? {
      var r := CompleteCatchUp(s.sessions[id], fetched).value;
      var t := s.(sessions := s.sessions[id := r.session]);
      HydratedSettle(t, id, r.hydrated, read, x);
      IdleSettles(CorrelateAll(t, id, r.hydrated, read).state, id, x);
    }
  }

  /** What a step has to be for `x` to be settled by it. */
  ghost predicate Earns(s: State, step: Step, read: Reader, x: Settlement) {
    match step
    case Failing(id, cmid, error) => Waits(Queue(s, id), cmid) && x == Settlement(cmid, Failed(error))
    case Refusing(id, error) => SettlesRefused(s, id, error, x)
    case Living(id, e) => !IsDuplicate(SessionOf(s, id), e) && SettlesEvent(Queue(s, id), e, read, x)
    case CatchingUp(id, fetched) => SettlesCaughtUp(s, id, fetched, read, x)
    case Listing(_, order) => SettlesListed(s, order, x)
    case Registering(_) | Cancelling(_) | Other(_, _) => false
  }

  predicate Orderly(step: Step) {
    step.Listing? ==> forall i, j :: 0 <= i < j < |step.order| ==> step.order[i] != step.order[j]
  }

  lemma AsListHas(settled: Option<Settlement>, x: Settlement)
    ensures x in AsList(settled) <==> settled == Some(x)
  {
  }

  lemma LiveSettles(s: State, id: Id, e: Envelope, read: Reader, x: Settlement)
    ensures HandleLiveEvent(s, id, e, read).settled == Some(x)
      <==> !IsDuplicate(SessionOf(s, id), e) && SettlesEvent(Queue(s, id), e, read, x)
  {
    EventSettles(s.(sessions := s.sessions[id := ApplyLive(SessionOf(s, id), e)]), id, e, read, x);
  }

  /** Each step settles exactly what it earns: which prompt, and with which outcome. */
  lemma StepSettles(s: State, step: Step, read: Reader, x: Settlement)
    requires Orderly(step)
    ensures x in Apply(s, step, read).settled <==> Earns(s, step, read, x)
  {
    match step
    case Failing(id, cmid, error) =>
      FailureSettles(s, id, cmid, error, x);
      AsListHas(FailPrompt(s, id, cmid, error).settled, x);
    case Refusing(id, error) =>
      RefusalSettles(s, id, error, x);
      AsListHas(FailRefused(s, id, error).settled, x);
    case Living(id, e) =>
      LiveSettles(s, id, e, read, x);
      AsListHas(HandleLiveEvent(s, id, e, read).settled, x);
    case CatchingUp(id, fetched) =>
      CatchUpSettles(s, id, fetched, read, x);
    case Listing(list, order) =>
      ListSettles(s, list, order, x);
    case Registering(_) =>
    case Cancelling(_) =>
    case Other(_, _) =>
  }

  ghost predicate SettlesListed(s: State, order: seq<Id>, x: Settlement) {
    exists id :: SettlesDeleted(s, order, id, x)
  }

  lemma ListSettles(s: State, list: seq<Listed>, order: seq<Id>, x: Settlement)
    requires forall i, j :: 0 <= i < j < |order| ==> order[i] != order[j]
    ensures x in ApplyList(s, list, order).settled <==> SettlesListed(s, order, x)
  {
    var t := s.(sessions := Adopt(s.sessions, list));
    DeletionSettles(t, order, x);
    forall id ensures SettlesDeleted(t, order, id, x) <==> SettlesDeleted(s, order, id, x) {
    }
  }

  ghost predicate EarnedAt(steps: seq<Step>, read: Reader, k: nat, x: Settlement)
    requires k < |steps|
  {
    Earns(Run(steps[..k], read).state, steps[k], read, x)
  }

  /** One of the first `n` steps earned `x`. */
  ghost predicate Earned(steps: seq<Step>, read: Reader, n: nat, x: Settlement)
    requires n <= |steps|
  {
    exists k: nat :: k < n && EarnedAt(steps, read, k, x)
  }

  lemma EarnedLonger(steps: seq<Step>, read: Reader, n: nat, x: Settlement)
    requires n <= |steps|
    ensures Earned(steps[..n], read, n, x) <==> Earned(steps, read, n, x)
  {
    var init := steps[..n];
    forall k: nat | k < n ensures EarnedAt(steps, read, k, x) <==> EarnedAt(init, read, k, x) {
      assert init[..k] == steps[..k];
    }
  }

  lemma EarnedNext(steps: seq<Step>, read: Reader, n: nat, x: Settlement)
    requires n < |steps|
    ensures Earned(steps, read, n + 1, x) <==> Earned(steps, read, n, x) || EarnedAt(steps, read, n, x)
  {
    if Earned(steps, read, n + 1, x) && !EarnedAt(steps, read, n, x) {
      var k: nat :| k < n + 1 && EarnedAt(steps, read, k, x);
      assert k < n;
    }
  }

  /** Over every run, the settlements are exactly those that some step earned. */
  lemma {:induction false} EveryOutcomeEarned(steps: seq<Step>, read: Reader, x: Settlement)
    requires forall k :: 0 <= k < |steps| ==> Orderly(steps[k])
    ensures x in Run(steps, read).settled <==> Earned(steps, read, |steps|, x)
  {
    if steps != [] {
      var last := |steps| - 1;
      EveryOutcomeEarned(steps[..last], read, x);
      StepSettles(Run(steps[..last], read).state, steps[last], read, x);
      EarnedLonger(steps, read, last, x);
      EarnedNext(steps, read, last, x);
    }
  }

  /* The turn that runs. */

  /**
   * While no catch-up of the session broke in, an event of the session settles prompt `c` if and only if `c` waits and
   * the event withdraws it, or ends the turn that runs, which is its own; with the outcome that the event names.
   */
  lemma OwnOutcomes(cs: seq<Connected>, id: Id, steps: seq<Step>, read: Reader, i: nat, x: Settlement)
    requires IsConnectedRun(cs, id, steps, read) && i < |steps| && steps[i].Living? && steps[i].id == id
    ensures
      var e, q := steps[i].e, Queue(cs[i].state, id);
      HandleLiveEvent(cs[i].state, id, e, read).settled == Some(x) <==>
        && Waits(q, x.cmid)
        && ((e.event == Updated(PromptCancelled(x.cmid)) && x.outcome == Stopped(Cancelled))
            || (cs[i].turn == Turn(x.cmid) && EndsWith(e.event, read, x.outcome)))
  {
    var s, e, q := cs[i].state, steps[i].e, Queue(cs[i].state, id);
    RunOwnsTurn(cs, id, steps, read, i);
    LiveSettles(s, id, e, read, x);
    if EndsWith(e.event, read, x.outcome) {
      assert e.cmid.None?;
      OwnFirst(q, e, cs[i].turn, s.nextCmid, x.cmid);
    }
  }

  /** The first dispatched prompt is the one whose turn runs. */
  lemma OwnFirst(q: seq<PendingPrompt>, e: Envelope, turn: Turn, next: nat, c: Cmid)
    requires OwnsTurn(q, turn, next) && e.cmid.None?
    ensures FirstDispatched(q, e, c) <==> Waits(q, c) && turn == Turn(c)
  {
    if Waits(q, c) && turn == Turn(c) {
      var k :| 0 <= k < |q| && q[k].cmid == c;
      assert Dispatched(q, e, k);
      forall j: nat | j < k ensures !Dispatched(q, e, j) {
        assert q[j].cmid != q[k].cmid;
      }
    }
  }
}
