/** The prompts a bridge submitted and the one outcome each of them gets. */
module PromptQueues {
  import opened Results
  import opened Transcript
  import opened Cache

  type Id = string

  datatype StopReason = EndTurn | MaxTokens | MaxTurnRequests | Refusal | Cancelled

  datatype PromptOutcome = Stopped(reason: StopReason) | Failed(message: string)

  datatype PendingPrompt = PendingPrompt(cmid: Cmid, started: bool, cancelRequested: bool)

  datatype Settlement = Settlement(cmid: Cmid, outcome: PromptOutcome)

  datatype State = State(
    sessions: map<Id, Session>,
    prompts: map<Id, seq<PendingPrompt>>,
    deleting: map<Id, nat>,
    nextCmid: nat)

  /** How the words of a `TurnEnd` are read; what is not a stop reason fails the prompt with those words. */
  type Reader = string -> Option<StopReason>

  function TurnOutcome(read: Reader, stopReason: string): PromptOutcome {
    if read(stopReason).Some? then Stopped(read(stopReason).value) else Failed(stopReason)
  }

  /** How a dispatched prompt ended when its session is seen in `status`; `None` while its turn may still run. */
  function IdleStopReason(status: Status): Option<StopReason> {
    match status
    case Running => Some(EndTurn)
    case Exited | Crashed | Interrupted => Some(Cancelled)
    case Starting | Busy => None
  }

  /* Finding a prompt in its queue; the length when there is none. */

  function FirstStarted(q: seq<PendingPrompt>): (i: nat)
    ensures i <= |q|
    ensures i < |q| ==> q[i].started
    ensures forall k :: 0 <= k < i ==> !q[k].started
  {
    if q == [] || q[0].started then 0 else 1 + FirstStarted(q[1..])
  }

  function FirstQueued(q: seq<PendingPrompt>): (i: nat)
    ensures i <= |q|
    ensures i < |q| ==> !q[i].started
    ensures forall k :: 0 <= k < i ==> q[k].started
  {
    if q == [] || !q[0].started then 0 else 1 + FirstQueued(q[1..])
  }

  function FindCmid(q: seq<PendingPrompt>, cmid: Cmid): (i: nat)
    ensures i <= |q|
    ensures i < |q| ==> q[i].cmid == cmid
    ensures forall k :: 0 <= k < i ==> q[k].cmid != cmid
  {
    if q == [] || q[0].cmid == cmid then 0 else 1 + FindCmid(q[1..], cmid)
  }

  function Queue(s: State, id: Id): seq<PendingPrompt> {
    if id in s.prompts then s.prompts[id] else []
  }

  datatype Settling = Settling(state: State, settled: Option<Settlement>)

  /** The prompt at `i` leaves its queue with `outcome`; nothing happens past the end. */
  function Settle(s: State, id: Id, i: nat, outcome: PromptOutcome): Settling {
    var q := Queue(s, id);
    if i >= |q| then Settling(s, None)
    else Settling(s.(prompts := s.prompts[id := q[..i] + q[i + 1..]]), Some(Settlement(q[i].cmid, outcome)))
  }

  function Register(s: State, id: Id): State {
    s.(prompts := s.prompts[id := Queue(s, id) + [PendingPrompt(Own(s.nextCmid), false, false)]],
       nextCmid := s.nextCmid + 1)
  }

  function FailPrompt(s: State, id: Id, cmid: Cmid, error: string): Settling {
    Settle(s, id, FindCmid(Queue(s, id), cmid), Failed(error))
  }

  /** A refusal that names no command: a deletion in flight, else the first prompt that was not dispatched. */
  function FailRefused(s: State, id: Id, error: string): Settling {
    var waiting := id in s.deleting && s.deleting[id] > 0;
    var released := s.(deleting := s.deleting - {id});
    if waiting then Settling(released, None)
    else Settle(released, id, FirstQueued(Queue(s, id)), Failed(error))
  }

  function CancelRequested(q: seq<PendingPrompt>): (r: seq<PendingPrompt>)
    ensures |r| == |q| && forall i :: 0 <= i < |q| ==> r[i] == q[i].(cancelRequested := true)
  {
    seq(|q|, i requires 0 <= i < |q| => q[i].(cancelRequested := true))
  }

  predicate AnyStarted(q: seq<PendingPrompt>) {
    exists i :: 0 <= i < |q| && q[i].started
  }

  predicate IsQueued(q: seq<PendingPrompt>, cmid: Cmid) {
    exists i :: 0 <= i < |q| && !q[i].started && q[i].cmid == cmid
  }

  function CancelPrompts(s: State, id: Id): State {
    if id in s.prompts then s.(prompts := s.prompts[id := CancelRequested(s.prompts[id])]) else s
  }

  datatype Marking = Marking(state: State, cancel: bool)

  /** The live echo of a submitted prompt: it was dispatched. */
  function MarkDispatched(s: State, id: Id, e: Envelope): Marking {
    if e.cmid.None? then Marking(s, false)
    else
      var q := Queue(s, id);
      var i := FindCmid(q, e.cmid.value);
      if i == |q| then Marking(s, false)
      else Marking(s.(prompts := s.prompts[id := q[i := q[i].(started := true)]]), q[i].cancelRequested)
  }

  datatype Correlation = Correlation(state: State, settled: Option<Settlement>, cancel: bool)

  function CorrelateEvent(s: State, id: Id, e: Event, read: Reader): Settling {
    match e
    case Updated(PromptCancelled(cmid)) => Settle(s, id, FindCmid(Queue(s, id), cmid), Stopped(Cancelled))
    case TurnEnd(stopReason) => Settle(s, id, FirstStarted(Queue(s, id)), TurnOutcome(read, stopReason))
    case Lifecycle(status, _) =>
      if IdleStopReason(status).None? then Settling(s, None)
      else Settle(s, id, FirstStarted(Queue(s, id)), Stopped(IdleStopReason(status).value))
    case _ => Settling(s, None)
  }

  /** One transcript event: at most one prompt is settled by it. */
  function Correlate(s: State, id: Id, e: Envelope, read: Reader): Correlation {
    var marked := MarkDispatched(s, id, e);
    var r := CorrelateEvent(marked.state, id, e.event, read);
    Correlation(r.state, r.settled, marked.cancel)
  }

  function SettleIdle(s: State, id: Id): Settling {
    if id !in s.sessions || s.sessions[id].meta.None? then Settling(s, None)
    else if IdleStopReason(s.sessions[id].meta.value.status).None? then Settling(s, None)
    else
      Settle(s, id, FirstStarted(Queue(s, id)), Stopped(IdleStopReason(s.sessions[id].meta.value.status).value))
  }

  function SessionOf(s: State, id: Id): Session {
    if id in s.sessions then s.sessions[id] else EMPTY_SESSION
  }

  datatype LiveResult = LiveResult(state: State, settled: Option<Settlement>, cancel: bool, forward: seq<Envelope>)

  function HandleLiveEvent(s: State, id: Id, e: Envelope, read: Reader): LiveResult {
    var session := SessionOf(s, id);
    if IsDuplicate(session, e) then
      var marked := MarkDispatched(s, id, e);
      LiveResult(marked.state.(sessions := marked.state.sessions[id := session]), None, marked.cancel, [])
    else
      var r := Correlate(s.(sessions := s.sessions[id := ApplyLive(session, e)]), id, e, read);
      LiveResult(r.state, r.settled, r.cancel, LiveForward(session, e))
  }

  datatype ManySettled = ManySettled(state: State, settled: seq<Settlement>)

  function AsList(settled: Option<Settlement>): seq<Settlement> {
    if settled.Some? then [settled.value] else []
  }

  /** Hydrated events are correlated one after another. */
  function CorrelateAll(s: State, id: Id, events: seq<Envelope>, read: Reader): ManySettled {
    if events == [] then ManySettled(s, [])
    else
      var before := CorrelateAll(s, id, events[..|events| - 1], read);
      var r := Correlate(before.state, id, events[|events| - 1], read);
      ManySettled(r.state, before.settled + AsList(r.settled))
  }

  datatype CatchUpResult = CatchUpResult(state: State, settled: seq<Settlement>, events: Option<seq<Envelope>>)

  function FinishCatchUp(s: State, id: Id, fetched: Option<Snapshot>, read: Reader): CatchUpResult {
    if id !in s.sessions || CompleteCatchUp(s.sessions[id], fetched).None? then CatchUpResult(s, [], None)
    else
      var r := CompleteCatchUp(s.sessions[id], fetched).value;
      var correlated := CorrelateAll(s.(sessions := s.sessions[id := r.session]), id, r.hydrated, read);
      var idle := SettleIdle(correlated.state, id);
      CatchUpResult(idle.state, correlated.settled + AsList(idle.settled), Some(r.events))
  }

  /* The daemon's list of sessions. */

  datatype Listed = Listed(id: Id, meta: Meta)

  function LiveIds(list: seq<Listed>): set<Id> {
    set l | l in list && !l.meta.closing :: l.id
  }

  function Adopt(sessions: map<Id, Session>, list: seq<Listed>): map<Id, Session> {
    if list == [] then sessions
    else
      var before := Adopt(sessions, list[..|list| - 1]);
      var l := list[|list| - 1];
      before[l.id := (if l.id in before then before[l.id] else EMPTY_SESSION).(meta := Some(l.meta))]
  }

  /** The sessions that left the list, or are closing, and had been listed or asked to be deleted. */
  function Deleted(s: State, list: seq<Listed>): set<Id> {
    var adopted := Adopt(s.sessions, list);
    set id | id in adopted && id !in LiveIds(list) && (adopted[id].meta.Some? || id in s.deleting) :: id
  }

  function DeletedOutcome(requested: bool): PromptOutcome {
    if requested then Stopped(Cancelled) else Failed(DELETED)
  }

  const DELETED := "this session was deleted in Cowboy"

  function Orphans(q: seq<PendingPrompt>, outcome: PromptOutcome): (r: seq<Settlement>)
    ensures |r| == |q| && forall i :: 0 <= i < |q| ==> r[i] == Settlement(q[i].cmid, outcome)
  {
    seq(|q|, i requires 0 <= i < |q| => Settlement(q[i].cmid, outcome))
  }

  /** The sessions `order` are deleted one after another. */
  function DeleteAll(s: State, order: seq<Id>): ManySettled {
    if order == [] then ManySettled(s, [])
    else
      var before := DeleteAll(s, order[..|order| - 1]);
      var id := order[|order| - 1];
      var t := before.state;
      ManySettled(
        t.(sessions := t.sessions - {id}, prompts := t.prompts - {id}, deleting := t.deleting - {id}),
        before.settled + Orphans(Queue(t, id), DeletedOutcome(id in t.deleting)))
  }

  function Retained(sessions: map<Id, Session>): map<Id, Session> {
    map id | id in sessions && (sessions[id].meta.Some? || sessions[id].attached) :: sessions[id]
  }

  /** `order` is the order in which the deleted sessions are met. */
  ghost predicate IsOrder(order: seq<Id>, ids: set<Id>) {
    && (forall id :: id in order <==> id in ids)
    && (forall i, j :: 0 <= i < j < |order| ==> order[i] != order[j])
  }

  function ApplyList(s: State, list: seq<Listed>, order: seq<Id>): ManySettled {
    var r := DeleteAll(s.(sessions := Adopt(s.sessions, list)), order);
    r.(state := r.state.(sessions := Retained(r.state.sessions)))
  }
}
