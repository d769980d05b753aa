/** Every submitted prompt gets exactly one outcome, that of its own turn. */
module PromptLaws {
  import opened Results
  import opened Transcript
  import opened Cache
  import opened PromptQueues

  type Queues = map<Id, seq<PendingPrompt>>

  predicate Here(prompts: Queues, id: Id, i: nat, c: Cmid) {
    id in prompts && i < |prompts[id]| && prompts[id][i].cmid == c
  }

  ghost predicate IsPending(prompts: Queues, c: Cmid) {
    exists id: Id, i: nat :: Here(prompts, id, i, c)
  }

  predicate IsSettled(settled: seq<Settlement>, c: Cmid) {
    exists k :: 0 <= k < |settled| && settled[k].cmid == c
  }

  predicate SettledOnce(settled: seq<Settlement>) {
    forall i, j :: 0 <= i < j < |settled| ==> settled[i].cmid != settled[j].cmid
  }

  ghost predicate InOnePlace(prompts: Queues) {
    forall id: Id, i: nat, jd: Id, j: nat, c: Cmid :: Here(prompts, id, i, c) && Here(prompts, jd, j, c) ==>
      id == jd && i == j
  }

  /** Exactly the registered prompts are accounted for, each pending in one place or settled once, never both. */
  ghost predicate Accounted(prompts: Queues, next: nat, settled: seq<Settlement>) {
    && InOnePlace(prompts)
    && SettledOnce(settled)
    && (forall c: Cmid :: IsPending(prompts, c) ==> !IsSettled(settled, c))
    && (forall c: Cmid :: IsPending(prompts, c) || IsSettled(settled, c) <==> c.Own? && c.n < next)
  }

  /** The same prompts wait in the same places. */
  ghost predicate SamePlaces(p: Queues, q: Queues) {
    forall id: Id, i: nat, c: Cmid :: Here(p, id, i, c) <==> Here(q, id, i, c)
  }

  lemma SamePlacesAccounted(p: Queues, q: Queues, next: nat, settled: seq<Settlement>)
    requires Accounted(p, next, settled) && SamePlaces(p, q)
    ensures Accounted(q, next, settled)
  {
    forall c: Cmid ensures IsPending(p, c) <==> IsPending(q, c) {
      if IsPending(p, c) {
        var id: Id, i: nat :| Here(p, id, i, c);
        assert Here(q, id, i, c);
      }
      if IsPending(q, c) {
        var id: Id, i: nat :| Here(q, id, i, c);
        assert Here(p, id, i, c);
      }
    }
  }

  lemma IsSettledNext(settled: seq<Settlement>, s: Settlement, c: Cmid)
    ensures IsSettled(settled + [s], c) <==> IsSettled(settled, c) || s.cmid == c
  {
    assert (settled + [s])[|settled|] == s;
    if IsSettled(settled, c) {
      var k :| 0 <= k < |settled| && settled[k].cmid == c;
      assert (settled + [s])[k] == settled[k];
    }
  }

  /** Where a prompt is after the one at `i` left. */
  lemma HereRemoved(p: Queues, id: Id, i: nat, jd: Id, j: nat, c: Cmid)
    requires id in p && i < |p[id]|
    ensures
      var q := p[id := p[id][..i] + p[id][i + 1..]];
      Here(q, jd, j, c) <==> Here(p, jd, if jd == id && j >= i then j + 1 else j, c)
  {
  }

  lemma TakenAccounted(p: Queues, next: nat, settled: seq<Settlement>, id: Id, i: nat, outcome: PromptOutcome)
    requires Accounted(p, next, settled) && id in p && i < |p[id]|
    ensures Accounted(p[id := p[id][..i] + p[id][i + 1..]], next, settled + [Settlement(p[id][i].cmid, outcome)])
  {
    var q := p[id := p[id][..i] + p[id][i + 1..]];
    var taken := p[id][i].cmid;
    assert Here(p, id, i, taken);
    forall c: Cmid ensures IsPending(q, c) <==> IsPending(p, c) && c != taken {
      PendingTaken(p, id, i, c);
    }
    forall jd: Id, j: nat, kd: Id, k: nat, c: Cmid | Here(q, jd, j, c) && Here(q, kd, k, c) ensures jd == kd && j == k {
      HereRemoved(p, id, i, jd, j, c);
      HereRemoved(p, id, i, kd, k, c);
    }
    forall c: Cmid {
      IsSettledNext(settled, Settlement(taken, outcome), c);
    }
    assert !IsSettled(settled, taken);
  }

  lemma PendingTaken(p: Queues, id: Id, i: nat, c: Cmid)
    requires InOnePlace(p) && id in p && i < |p[id]|
    ensures IsPending(p[id := p[id][..i] + p[id][i + 1..]], c) <==> IsPending(p, c) && c != p[id][i].cmid
  {
    var q := p[id := p[id][..i] + p[id][i + 1..]];
    assert Here(p, id, i, p[id][i].cmid);
    if IsPending(q, c) {
      var jd: Id, j: nat :| Here(q, jd, j, c);
      HereRemoved(p, id, i, jd, j, c);
    }
    if IsPending(p, c) && c != p[id][i].cmid {
      var jd: Id, j: nat :| Here(p, jd, j, c);
      HereRemoved(p, id, i, jd, if jd == id && j > i then j - 1 else j, c);
      assert Here(q, jd, if jd == id && j > i then j - 1 else j, c);
    }
  }

  lemma SettleAccounted(s: State, settled: seq<Settlement>, id: Id, i: nat, outcome: PromptOutcome)
    requires Accounted(s.prompts, s.nextCmid, settled)
    ensures
      var r := Settle(s, id, i, outcome);
      Accounted(r.state.prompts, r.state.nextCmid, settled + AsList(r.settled))
  {
    if i < |Queue(s, id)| {
      TakenAccounted(s.prompts, s.nextCmid, settled, id, i, outcome);
    } else {
      assert settled + [] == settled;
    }
  }

  lemma RegisterAccounted(s: State, settled: seq<Settlement>, id: Id)
    requires Accounted(s.prompts, s.nextCmid, settled)
    ensures Accounted(Register(s, id).prompts, Register(s, id).nextCmid, settled)
  {
    var p, q := s.prompts, Register(s, id).prompts;
    var added := Own(s.nextCmid);
    var end := |Queue(s, id)|;
    forall jd: Id, j: nat, c: Cmid
      ensures Here(q, jd, j, c) <==> Here(p, jd, j, c) || (jd == id && j == end && c == added)
    {
    }
    assert !IsPending(p, added) && !IsSettled(settled, added);
    forall c: Cmid ensures IsPending(q, c) <==> IsPending(p, c) || c == added {
      if IsPending(p, c) {
        var jd: Id, j: nat :| Here(p, jd, j, c);
        assert Here(q, jd, j, c);
      }
      assert Here(q, id, end, added);
    }
    forall jd: Id, j: nat, kd: Id, k: nat, c: Cmid | Here(q, jd, j, c) && Here(q, kd, k, c) ensures jd == kd && j == k {
      if c == added {
        assert !Here(p, jd, j, c) && !Here(p, kd, k, c);
      }
    }
  }

  lemma MarkAccounted(s: State, settled: seq<Settlement>, id: Id, e: Envelope)
    requires Accounted(s.prompts, s.nextCmid, settled)
    ensures Accounted(MarkDispatched(s, id, e).state.prompts, MarkDispatched(s, id, e).state.nextCmid, settled)
  {
    SamePlacesAccounted(s.prompts, MarkDispatched(s, id, e).state.prompts, s.nextCmid, settled);
  }

  lemma CancelAccounted(s: State, settled: seq<Settlement>, id: Id)
    requires Accounted(s.prompts, s.nextCmid, settled)
    ensures Accounted(CancelPrompts(s, id).prompts, CancelPrompts(s, id).nextCmid, settled)
  {
    SamePlacesAccounted(s.prompts, CancelPrompts(s, id).prompts, s.nextCmid, settled);
  }

  lemma CorrelateAccounted(s: State, settled: seq<Settlement>, id: Id, e: Envelope, read: Reader)
    requires Accounted(s.prompts, s.nextCmid, settled)
    ensures
      var r := Correlate(s, id, e, read);
      Accounted(r.state.prompts, r.state.nextCmid, settled + AsList(r.settled))
  {
    MarkAccounted(s, settled, id, e);
    var t := MarkDispatched(s, id, e).state;
    assert settled + [] == settled;
    match e.event {
      case Updated(update) =>
        if update.PromptCancelled? {
          SettleAccounted(t, settled, id, FindCmid(Queue(t, id), update.cmid), Stopped(Cancelled));
        }
      case TurnEnd(stopReason) =>
        SettleAccounted(t, settled, id, FirstStarted(Queue(t, id)), TurnOutcome(read, stopReason));
      case Lifecycle(status, _) =>
        if IdleStopReason(status).Some? {
          SettleAccounted(t, settled, id, FirstStarted(Queue(t, id)), Stopped(IdleStopReason(status).value));
        }
      case PermissionRequest(_, _) =>
      case PermissionResolved(_) =>
    }
  }

  lemma {:induction false} CorrelateAllAccounted(s: State, settled: seq<Settlement>, id: Id, events: seq<Envelope>,
                                                 read: Reader)
    requires Accounted(s.prompts, s.nextCmid, settled)
    ensures
      var r := CorrelateAll(s, id, events, read);
      Accounted(r.state.prompts, r.state.nextCmid, settled + r.settled)
  {
    if events == [] {
      assert settled + [] == settled;
    } else {
      var before := CorrelateAll(s, id, events[..|events| - 1], read);
      CorrelateAllAccounted(s, settled, id, events[..|events| - 1], read);
      CorrelateAccounted(before.state, settled + before.settled, id, events[|events| - 1], read);
      var r := Correlate(before.state, id, events[|events| - 1], read);
      assert settled + (before.settled + AsList(r.settled)) == (settled + before.settled) + AsList(r.settled);
    }
  }

  /** One queue is orphaned, prompt by prompt from its end. */
  lemma {:induction false} QueueAccounted(p: Queues, next: nat, settled: seq<Settlement>, id: Id, k: nat,
                                          outcome: PromptOutcome)
    requires id in p && k <= |p[id]| && Accounted(p, next, settled)
    ensures Accounted(p[id := p[id][k..]], next, settled + Orphans(p[id], outcome)[..k])
  {
    var orphans := Orphans(p[id], outcome);
    if k == 0 {
      assert p[id := p[id][0..]] == p;
      assert settled + orphans[..0] == settled;
    } else {
      QueueAccounted(p, next, settled, id, k - 1, outcome);
      var q := p[id := p[id][k - 1..]];
      TakenAccounted(q, next, settled + orphans[..k - 1], id, 0, outcome);
      assert q[id][..0] + q[id][1..] == p[id][k..];
      assert q[id := p[id][k..]] == p[id := p[id][k..]];
      assert settled + orphans[..k - 1] + [Settlement(q[id][0].cmid, outcome)] == settled + orphans[..k];
    }
  }

  lemma DeletedAccounted(p: Queues, next: nat, settled: seq<Settlement>, id: Id, q: seq<PendingPrompt>,
                         outcome: PromptOutcome)
    requires Accounted(p, next, settled) && q == (if id in p then p[id] else [])
    ensures Accounted(p - {id}, next, settled + Orphans(q, outcome))
  {
    if id in p {
      QueueAccounted(p, next, settled, id, |q|, outcome);
      assert Orphans(q, outcome)[..|q|] == Orphans(q, outcome);
      SamePlacesAccounted(p[id := p[id][|q|..]], p - {id}, next, settled + Orphans(q, outcome));
    } else {
      assert p - {id} == p;
      assert settled + Orphans(q, outcome) == settled;
    }
  }

  lemma {:induction false} DeleteAllAccounted(s: State, settled: seq<Settlement>, order: seq<Id>)
    requires Accounted(s.prompts, s.nextCmid, settled)
    ensures
      var r := DeleteAll(s, order);
      Accounted(r.state.prompts, r.state.nextCmid, settled + r.settled)
  {
    if order == [] {
      assert settled + [] == settled;
    } else {
      var id := order[|order| - 1];
      DeleteAllAccounted(s, settled, order[..|order| - 1]);
      var before := DeleteAll(s, order[..|order| - 1]);
      var t := before.state;
      var outcome := DeletedOutcome(id in t.deleting);
      DeletedAccounted(t.prompts, t.nextCmid, settled + before.settled, id, Queue(t, id), outcome);
      assert settled + (before.settled + Orphans(Queue(t, id), outcome)) ==
        (settled + before.settled) + Orphans(Queue(t, id), outcome);
    }
  }

  /* Runs of the bridge. */

  datatype Step =
    | Registering(id: Id)
    | Failing(id: Id, cmid: Cmid, error: string)
    | Refusing(id: Id, error: string)
    | Cancelling(id: Id)
    | Living(id: Id, e: Envelope)
    | CatchingUp(id: Id, fetched: Option<Snapshot>)
    | Listing(list: seq<Listed>, order: seq<Id>)
    | Other(sessions: map<Id, Session>, deleting: map<Id, nat>)

  /** What a step leaves, and the prompts it settles. `Other` is anything that leaves the prompts alone. */
  function Apply(s: State, step: Step, read: Reader): ManySettled {
    match step
    case Registering(id) => ManySettled(Register(s, id), [])
    case Failing(id, cmid, error) => var r := FailPrompt(s, id, cmid, error); ManySettled(r.state, AsList(r.settled))
    case Refusing(id, error) => var r := FailRefused(s, id, error); ManySettled(r.state, AsList(r.settled))
    case Cancelling(id) => ManySettled(CancelPrompts(s, id), [])
    case Living(id, e) => var r := HandleLiveEvent(s, id, e, read); ManySettled(r.state, AsList(r.settled))
    case CatchingUp(id, fetched) => var r := FinishCatchUp(s, id, fetched, read); ManySettled(r.state, r.settled)
    case Listing(list, order) => ApplyList(s, list, order)
    case Other(sessions, deleting) => ManySettled(s.(sessions := sessions, deleting := deleting), [])
  }

  const NO_PROMPTS := State(map[], map[], map[], 0)

  function Run(steps: seq<Step>, read: Reader): ManySettled {
    if steps == [] then ManySettled(NO_PROMPTS, [])
    else
      var before := Run(steps[..|steps| - 1], read);
      var r := Apply(before.state, steps[|steps| - 1], read);
      ManySettled(r.state, before.settled + r.settled)
  }

  lemma LiveAccounted(s: State, settled: seq<Settlement>, id: Id, e: Envelope, read: Reader)
    requires Accounted(s.prompts, s.nextCmid, settled)
    ensures
      var r := HandleLiveEvent(s, id, e, read);
      Accounted(r.state.prompts, r.state.nextCmid, settled + AsList(r.settled))
  {
    if IsDuplicate(SessionOf(s, id), e) {
      MarkAccounted(s, settled, id, e);
      assert settled + [] == settled;
    } else {
      CorrelateAccounted(s.(sessions := s.sessions[id := ApplyLive(SessionOf(s, id), e)]), settled, id, e, read);
    }
  }

  lemma CatchUpAccounted(s: State, settled: seq<Settlement>, id: Id, fetched: Option<Snapshot>, read: Reader)
    requires Accounted(s.prompts, s.nextCmid, settled)
    ensures
      var r := FinishCatchUp(s, id, fetched, read);
      Accounted(r.state.prompts, r.state.nextCmid, settled + r.settled)
  {
    if id !in s.sessions || CompleteCatchUp(s.sessions[id], fetched).None? {
      assert settled + [] == settled;
    } else {
      var r := CompleteCatchUp(s.sessions[id], fetched).value;
      var t := s.(sessions := s.sessions[id := r.session]);
      CorrelateAllAccounted(t, settled, id, r.hydrated, read);
      var c := CorrelateAll(t, id, r.hydrated, read);
      IdleAccounted(c.state, settled + c.settled, id);
      assert settled + (c.settled + AsList(SettleIdle(c.state, id).settled)) ==
        (settled + c.settled) + AsList(SettleIdle(c.state, id).settled);
    }
  }

  lemma IdleAccounted(s: State, settled: seq<Settlement>, id: Id)
    requires Accounted(s.prompts, s.nextCmid, settled)
    ensures
      var r := SettleIdle(s, id);
      Accounted(r.state.prompts, r.state.nextCmid, settled + AsList(r.settled))
  {
    if SettleIdle(s, id).settled.Some? {
      SettleAccounted(s, settled, id, FirstStarted(Queue(s, id)), SettleIdle(s, id).settled.value.outcome);
    } else {
      assert settled + [] == settled;
    }
  }

  lemma StepAccounted(s: State, settled: seq<Settlement>, step: Step, read: Reader)
    requires Accounted(s.prompts, s.nextCmid, settled)
    ensures
      var r := Apply(s, step, read);
      Accounted(r.state.prompts, r.state.nextCmid, settled + r.settled)
  {
    assert settled + [] == settled;
    match step
    case Registering(id) => RegisterAccounted(s, settled, id);
    case Failing(id, cmid, error) => SettleAccounted(s, settled, id, FindCmid(Queue(s, id), cmid), Failed(error));
    case Refusing(id, error) =>
      var released := s.(deleting := s.deleting - {id});
      SettleAccounted(released, settled, id, FirstQueued(Queue(s, id)), Failed(error));
    case Cancelling(id) => CancelAccounted(s, settled, id);
    case Living(id, e) => LiveAccounted(s, settled, id, e, read);
    case CatchingUp(id, fetched) => CatchUpAccounted(s, settled, id, fetched, read);
    case Listing(list, order) => DeleteAllAccounted(s.(sessions := Adopt(s.sessions, list)), settled, order);
    case Other(_, _) =>
  }

  /** In every reachable state each registered prompt is either pending, in one queue, or was settled exactly once. */
  lemma {:induction false} EveryPromptOnce(steps: seq<Step>, read: Reader)
    ensures
      var r := Run(steps, read);
      Accounted(r.state.prompts, r.state.nextCmid, r.settled)
  {
    if steps != [] {
      var before := Run(steps[..|steps| - 1], read);
      EveryPromptOnce(steps[..|steps| - 1], read);
      StepAccounted(before.state, before.settled, steps[|steps| - 1], read);
    }
  }

  /* Turns. */

  /** The turn the daemon runs in a session: that of a submitted prompt, or none that the bridge knows. */
  datatype Turn = NoTurn | Turn(owner: Cmid)

  predicate EndsTurn(e: Event) {
    e.TurnEnd? || (e.Lifecycle? && IdleStopReason(e.status).Some?)
  }

  function TurnAfter(turn: Turn, e: Envelope): Turn {
    if e.cmid.Some? then Turn(e.cmid.value) else if EndsTurn(e.event) then NoTurn else turn
  }

  /**
   * The daemon runs one turn at a time: it echoes a prompt when no other turn runs, the echo ends no turn, and a
   * prompt of this bridge was registered before.
   */
  predicate Serialized(turn: Turn, next: nat, e: Envelope) {
    e.cmid.Some? ==>
      && (turn == NoTurn || turn == Turn(e.cmid.value))
      && !EndsTurn(e.event) && !(e.event.Updated? && e.event.update.PromptCancelled?)
      && (e.cmid.value.Own? ==> e.cmid.value.n < next)
  }

  /** The started prompt of the session, if any, is the one whose turn runs. */
  ghost predicate OwnsTurn(q: seq<PendingPrompt>, turn: Turn, next: nat) {
    && (forall i, j :: 0 <= i < j < |q| ==> q[i].cmid != q[j].cmid)
    && (forall i :: 0 <= i < |q| ==> q[i].cmid.Own? && q[i].cmid.n < next)
    && (forall i :: 0 <= i < |q| ==> (q[i].started <==> turn == Turn(q[i].cmid)))
    && (turn.Turn? && turn.owner.Own? ==> turn.owner.n < next)
  }

  lemma RemovedOwnsTurn(q: seq<PendingPrompt>, turn: Turn, next: nat, i: nat)
    requires OwnsTurn(q, turn, next) && i < |q|
    ensures OwnsTurn(q[..i] + q[i + 1..], turn, next)
  {
    var r := q[..i] + q[i + 1..];
    assert forall k :: 0 <= k < |r| ==> r[k] == q[if k < i then k else k + 1];
  }

  lemma MarkedOwnsTurn(q: seq<PendingPrompt>, turn: Turn, next: nat, e: Envelope)
    requires OwnsTurn(q, turn, next) && Serialized(turn, next, e) && e.cmid.Some?
    ensures
      var i := FindCmid(q, e.cmid.value);
      OwnsTurn(if i == |q| then q else q[i := q[i].(started := true)], TurnAfter(turn, e), next)
  {
  }

  /** The turn ended: its prompt left the queue, and none is started. */
  lemma EndedRest(q: seq<PendingPrompt>, turn: Turn, next: nat, i: nat)
    requires OwnsTurn(q, turn, next) && i < |q| && q[i].started
    ensures OwnsTurn(q[..i] + q[i + 1..], NoTurn, next)
  {
    OneStarted(q, turn, next, i);
    var r := q[..i] + q[i + 1..];
    assert forall k :: 0 <= k < |r| ==> r[k] == q[if k < i then k else k + 1];
  }

  predicate AllIdle(q: seq<PendingPrompt>) {
    forall k :: 0 <= k < |q| ==> !q[k].started
  }

  lemma IdleOwnsTurn(q: seq<PendingPrompt>, turn: Turn, next: nat)
    requires OwnsTurn(q, turn, next) && AllIdle(q)
    ensures OwnsTurn(q, NoTurn, next)
  {
  }

  lemma OneStarted(q: seq<PendingPrompt>, turn: Turn, next: nat, i: nat)
    requires OwnsTurn(q, turn, next) && i < |q| && q[i].started
    ensures forall k :: 0 <= k < |q| && k != i ==> !q[k].started
  {
    assert turn == Turn(q[i].cmid);
  }

  /** Taking a prompt out of the queue of the session. */
  lemma SettleQueue(s: State, id: Id, i: nat, outcome: PromptOutcome)
    ensures
      var q := Queue(s, id);
      Queue(Settle(s, id, i, outcome).state, id) == if i >= |q| then q else q[..i] + q[i + 1..]
  {
  }

  lemma MarkQueue(s: State, id: Id, e: Envelope)
    ensures
      var q := Queue(s, id);
      Queue(MarkDispatched(s, id, e).state, id) ==
        if e.cmid.None? || FindCmid(q, e.cmid.value) == |q| then q
        else q[FindCmid(q, e.cmid.value) := q[FindCmid(q, e.cmid.value)].(started := true)]
  {
  }

  lemma SettleOwnsTurn(s: State, id: Id, turn: Turn, i: nat, outcome: PromptOutcome)
    requires OwnsTurn(Queue(s, id), turn, s.nextCmid)
    ensures OwnsTurn(Queue(Settle(s, id, i, outcome).state, id), turn, s.nextCmid)
  {
    SettleQueue(s, id, i, outcome);
    if i < |Queue(s, id)| {
      RemovedOwnsTurn(Queue(s, id), turn, s.nextCmid, i);
    }
  }

  lemma CorrelateOwnsTurn(s: State, id: Id, turn: Turn, e: Event, read: Reader)
    requires OwnsTurn(Queue(s, id), turn, s.nextCmid)
    ensures OwnsTurn(Queue(CorrelateEvent(s, id, e, read).state, id), if EndsTurn(e) then NoTurn else turn, s.nextCmid)
  {
    var q := Queue(s, id);
    if EndsTurn(e) {
      var i := FirstStarted(q);
      SettleQueue(s, id, i, Stopped(EndTurn));
      if i < |q| {
        EndedRest(q, turn, s.nextCmid, i);
      } else {
        assert AllIdle(q);
        IdleOwnsTurn(q, turn, s.nextCmid);
      }
    } else if e.Updated? && e.update.PromptCancelled? {
      SettleOwnsTurn(s, id, turn, FindCmid(q, e.update.cmid), Stopped(Cancelled));
    }
  }

  lemma EventOwnsTurn(s: State, id: Id, turn: Turn, e: Envelope, read: Reader)
    requires OwnsTurn(Queue(s, id), turn, s.nextCmid) && Serialized(turn, s.nextCmid, e)
    ensures OwnsTurn(Queue(Correlate(s, id, e, read).state, id), TurnAfter(turn, e), s.nextCmid)
  {
    MarkQueue(s, id, e);
    if e.cmid.Some? {
      MarkedOwnsTurn(Queue(s, id), turn, s.nextCmid, e);
    } else {
      CorrelateOwnsTurn(s, id, turn, e.event, read);
    }
  }

  /* What happens in other sessions, and what a list of sessions does. */

  lemma FreshOwnsTurn(q: seq<PendingPrompt>, turn: Turn, next: nat)
    requires OwnsTurn(q, turn, next)
    ensures OwnsTurn(q, turn, next + 1)
    ensures OwnsTurn(q + [PendingPrompt(Own(next), false, false)], turn, next + 1)
  {
  }

  /** The queue of `id` is as it was. */
  predicate QueueKept(s: State, t: State, id: Id) {
    Queue(t, id) == Queue(s, id) && t.nextCmid == s.nextCmid
  }

  lemma CorrelatedElsewhere(s: State, other: Id, e: Envelope, read: Reader, id: Id)
    requires other != id
    ensures QueueKept(s, Correlate(s, other, e, read).state, id)
  {
  }

  lemma {:induction false} AllCorrelatedElsewhere(s: State, other: Id, events: seq<Envelope>, read: Reader, id: Id)
    requires other != id
    ensures QueueKept(s, CorrelateAll(s, other, events, read).state, id)
  {
    if events != [] {
      AllCorrelatedElsewhere(s, other, events[..|events| - 1], read, id);
      CorrelatedElsewhere(
        CorrelateAll(s, other, events[..|events| - 1], read).state, other, events[|events| - 1], read, id);
    }
  }

  lemma CaughtUpElsewhere(s: State, other: Id, fetched: Option<Snapshot>, read: Reader, id: Id)
    requires other != id
    ensures QueueKept(s, FinishCatchUp(s, other, fetched, read).state, id)
  {
    if other in s.sessions && CompleteCatchUp(s.sessions[other], fetched).Some? {
      var r := CompleteCatchUp(s.sessions[other], fetched).value;
      AllCorrelatedElsewhere(s.(sessions := s.sessions[other := r.session]), other, r.hydrated, read, id);
    }
  }

  lemma {:induction false} DeletedQueue(s: State, order: seq<Id>, id: Id)
    ensures
      var t := DeleteAll(s, order).state;
      t.nextCmid == s.nextCmid && (Queue(t, id) == Queue(s, id) || Queue(t, id) == [])
  {
    if order != [] {
      DeletedQueue(s, order[..|order| - 1], id);
    }
  }

  /** A bridge whose connection to the turns of one session is unbroken: the turn that session runs. */
  datatype Connected = Connected(state: State, turn: Turn)

  /**
   * Anything but a catch-up of session `id`: lists, prompts, refusals, cancellations, and whatever happens in other
   * sessions. A live event of the session is new, and its turns are serialized.
   */
  predicate Happens(c: Connected, id: Id, step: Step) {
    match step
    case Living(i, e) => i == id ==> !IsDuplicate(SessionOf(c.state, id), e) && Serialized(c.turn, c.state.nextCmid, e)
    case CatchingUp(i, _) => i != id
    case _ => true
  }

  function Advance(c: Connected, id: Id, step: Step, read: Reader): Connected {
    Connected(
      Apply(c.state, step, read).state,
      if step.Living? && step.id == id then TurnAfter(c.turn, step.e) else c.turn)
  }

  /** From any state of the bridge, at the start or after a catch-up, in which no prompt of the session waits. */
  predicate IsConnectedRun(cs: seq<Connected>, id: Id, steps: seq<Step>, read: Reader) {
    && |cs| == |steps| + 1 && Queue(cs[0].state, id) == []
    && (cs[0].turn.Turn? && cs[0].turn.owner.Own? ==> cs[0].turn.owner.n < cs[0].state.nextCmid)
    && forall i :: 0 <= i < |steps| ==> Happens(cs[i], id, steps[i]) && cs[i + 1] == Advance(cs[i], id, steps[i], read)
  }

  lemma LiveOwnsTurn(s: State, turn: Turn, id: Id, e: Envelope, read: Reader)
    requires OwnsTurn(Queue(s, id), turn, s.nextCmid)
    requires !IsDuplicate(SessionOf(s, id), e) && Serialized(turn, s.nextCmid, e)
    ensures
      var t := HandleLiveEvent(s, id, e, read).state;
      OwnsTurn(Queue(t, id), TurnAfter(turn, e), t.nextCmid)
  {
    var session := SessionOf(s, id);
    EventOwnsTurn(s.(sessions := s.sessions[id := ApplyLive(session, e)]), id, turn, e, read);
  }

  lemma LiveElsewhere(s: State, other: Id, e: Envelope, read: Reader, id: Id)
    requires other != id
    ensures QueueKept(s, HandleLiveEvent(s, other, e, read).state, id)
  {
    CorrelatedElsewhere(s.(sessions := s.sessions[other := ApplyLive(SessionOf(s, other), e)]), other, e, read, id);
  }

  /** A prompt, a refusal or a cancellation, in this session or another. */
  lemma CommandOwnsTurn(c: Connected, id: Id, step: Step, read: Reader)
    requires step.Registering? || step.Failing? || step.Refusing? || step.Cancelling?
    requires OwnsTurn(Queue(c.state, id), c.turn, c.state.nextCmid)
    ensures
      var t := Apply(c.state, step, read).state;
      OwnsTurn(Queue(t, id), c.turn, t.nextCmid)
  {
    var q := Queue(c.state, id);
    match step
    case Registering(_) => FreshOwnsTurn(q, c.turn, c.state.nextCmid);
    case Failing(i, cmid, error) =>
      if i == id {
        SettleOwnsTurn(c.state, id, c.turn, FindCmid(q, cmid), Failed(error));
      }
    case Refusing(i, error) =>
      if i == id {
        SettleOwnsTurn(c.state.(deleting := c.state.deleting - {id}), id, c.turn, FirstQueued(q), Failed(error));
      }
    case Cancelling(_) =>
  }

  lemma StepOwnsTurn(c: Connected, id: Id, step: Step, read: Reader)
    requires OwnsTurn(Queue(c.state, id), c.turn, c.state.nextCmid) && Happens(c, id, step)
    ensures
      var d := Advance(c, id, step, read);
      OwnsTurn(Queue(d.state, id), d.turn, d.state.nextCmid)
  {
    match step
    case Living(i, e) =>
      if i == id {
        LiveOwnsTurn(c.state, c.turn, id, e, read);
      } else {
        LiveElsewhere(c.state, i, e, read, id);
      }
    case CatchingUp(i, fetched) => CaughtUpElsewhere(c.state, i, fetched, read, id);
    case Listing(list, order) => DeletedQueue(c.state.(sessions := Adopt(c.state.sessions, list)), order, id);
    case Other(_, _) =>
    case Registering(_) => CommandOwnsTurn(c, id, step, read);
    case Failing(_, _, _) => CommandOwnsTurn(c, id, step, read);
    case Refusing(_, _) => CommandOwnsTurn(c, id, step, read);
    case Cancelling(_) => CommandOwnsTurn(c, id, step, read);
  }

  lemma {:induction false} RunOwnsTurn(cs: seq<Connected>, id: Id, steps: seq<Step>, read: Reader, i: nat)
    requires IsConnectedRun(cs, id, steps, read) && i < |cs|
    ensures OwnsTurn(Queue(cs[i].state, id), cs[i].turn, cs[i].state.nextCmid)
  {
    if i > 0 {
      RunOwnsTurn(cs, id, steps, read, i - 1);
      StepOwnsTurn(cs[i - 1], id, steps[i - 1], read);
    }
  }

  /**
   * While no catch-up of the session broke in, whatever lists came and whatever happened in other sessions, a `TurnEnd`
   * settles a prompt if and only if that prompt is pending and it is its own turn that ends, and gives it the outcome
   * of that turn.
   */
  lemma OwnOutcome(cs: seq<Connected>, id: Id, steps: seq<Step>, read: Reader, i: nat, c: Cmid)
    requires IsConnectedRun(cs, id, steps, read) && i < |steps|
    requires steps[i].Living? && steps[i].id == id && steps[i].e.event.TurnEnd?
    ensures
      var s := cs[i].state;
      var r := HandleLiveEvent(s, id, steps[i].e, read);
      var own := cs[i].turn == Turn(c) && FindCmid(Queue(s, id), c) < |Queue(s, id)|;
      && (own ==> r.settled == Some(Settlement(c, TurnOutcome(read, steps[i].e.event.stopReason))))
      && (r.settled.Some? && r.settled.value.cmid == c ==> own)
  {
    RunOwnsTurn(cs, id, steps, read, i);
    var q := Queue(cs[i].state, id);
    var k := FindCmid(q, c);
    var f := FirstStarted(q);
    assert k < |q| && cs[i].turn == Turn(c) ==> q[k].started && f == k;
  }
}
