/** The bridge's state, updated in place. */
module Bridge {
  import opened Results
  import opened Transcript
  import opened Cache
  import PQ = PromptQueues
  import opened PromptQueues

  class BridgeState {
    var sessions: map<Id, Session>
    var pendingPrompts: map<Id, seq<PendingPrompt>>
    var deleteWaiters: map<Id, nat>
    var nextCmid: nat
    const read: Reader

    ghost function View(): State
      reads this
    {
      State(sessions, pendingPrompts, deleteWaiters, nextCmid)
    }

    constructor (read: Reader)
      ensures View() == State(map[], map[], map[], 0) && this.read == read
    {
      sessions, pendingPrompts, deleteWaiters, nextCmid := map[], map[], map[], 0;
      this.read := read;
    }

    method RegisterPrompt(id: Id) returns (cmid: Cmid)
      modifies this
      ensures View() == Register(old(View()), id) && cmid == Own(old(nextCmid))
    {
      cmid := Own(nextCmid);
      nextCmid := nextCmid + 1;
      var queue := if id in pendingPrompts then pendingPrompts[id] else [];
      pendingPrompts := pendingPrompts[id := queue + [PendingPrompt(cmid, false, false)]];
    }

    /** Takes the prompt at `i` out of its queue. */
    method Take(id: Id, i: nat, outcome: PromptOutcome) returns (settled: Option<Settlement>)
      modifies this`pendingPrompts
      ensures Settling(View(), settled) == Settle(old(View()), id, i, outcome)
    {
      if id !in pendingPrompts || i >= |pendingPrompts[id]| {
        return None;
      }
      var queue := pendingPrompts[id];
      pendingPrompts := pendingPrompts[id := queue[..i] + queue[i + 1..]];
      return Some(Settlement(queue[i].cmid, outcome));
    }

    method PositionOfStarted(id: Id) returns (i: nat)
      ensures i == FirstStarted(Queue(View(), id))
    {
      var queue := if id in pendingPrompts then pendingPrompts[id] else [];
      i := 0;
      while i < |queue| && !queue[i].started
        invariant i <= |queue| && FirstStarted(queue) == i + FirstStarted(queue[i..])
      {
        i := i + 1;
      }
    }

    method PositionOfQueued(id: Id) returns (i: nat)
      ensures i == FirstQueued(Queue(View(), id))
    {
      var queue := if id in pendingPrompts then pendingPrompts[id] else [];
      i := 0;
      while i < |queue| && queue[i].started
        invariant i <= |queue| && FirstQueued(queue) == i + FirstQueued(queue[i..])
      {
        i := i + 1;
      }
    }

    method PositionOfCmid(id: Id, cmid: Cmid) returns (i: nat)
      ensures i == FindCmid(Queue(View(), id), cmid)
    {
      var queue := if id in pendingPrompts then pendingPrompts[id] else [];
      i := 0;
      while i < |queue| && queue[i].cmid != cmid
        invariant i <= |queue| && FindCmid(queue, cmid) == i + FindCmid(queue[i..], cmid)
      {
        i := i + 1;
      }
    }

    method FailPrompt(id: Id, cmid: Cmid, error: string) returns (settled: Option<Settlement>)
      modifies this
      ensures Settling(View(), settled) == PQ.FailPrompt(old(View()), id, cmid, error)
    {
      var i := PositionOfCmid(id, cmid);
      settled := Take(id, i, Failed(error));
    }

    method FailRefused(id: Id, error: string) returns (settled: Option<Settlement>)
      modifies this
      ensures Settling(View(), settled) == PQ.FailRefused(old(View()), id, error)
    {
      var waiting := id in deleteWaiters && deleteWaiters[id] > 0;
      deleteWaiters := deleteWaiters - {id};
      if waiting {
        return None;
      }
      var i := PositionOfQueued(id);
      settled := Take(id, i, Failed(error));
    }

    /**
     * Marks every prompt of the session; says which to withdraw from the queue, and whether a turn is to be stopped.
     */
    method CancelPrompts(id: Id) returns (queued: seq<Cmid>, active: bool)
      modifies this
      ensures View() == PQ.CancelPrompts(old(View()), id)
      ensures active <==> AnyStarted(Queue(old(View()), id))
      ensures forall c :: c in queued <==> IsQueued(Queue(old(View()), id), c)
    {
      queued, active := [], false;
      if id !in pendingPrompts {
        return;
      }
      var queue := pendingPrompts[id];
      var marked, i := [], 0;
      while i < |queue|
        invariant i <= |queue| && marked == CancelRequested(queue[..i])
        invariant active <==> exists k :: 0 <= k < i && queue[k].started
        invariant forall c :: c in queued ==> IsQueued(queue, c)
        invariant forall k :: 0 <= k < i && !queue[k].started ==> queue[k].cmid in queued
        invariant View() == old(View())
      {
        marked := marked + [queue[i].(cancelRequested := true)];
        if queue[i].started {
          active := true;
        } else {
          queued := queued + [queue[i].cmid];
        }
        i := i + 1;
      }
      assert queue[..i] == queue;
      pendingPrompts := pendingPrompts[id := marked];
    }

    method MarkDispatched(id: Id, e: Envelope) returns (cancel: bool)
      modifies this`pendingPrompts
      ensures Marking(View(), cancel) == PQ.MarkDispatched(old(View()), id, e)
    {
      if e.cmid.None? {
        return false;
      }
      var i := PositionOfCmid(id, e.cmid.value);
      if id !in pendingPrompts || i == |pendingPrompts[id]| {
        return false;
      }
      var queue := pendingPrompts[id];
      pendingPrompts := pendingPrompts[id := queue[i := queue[i].(started := true)]];
      return queue[i].cancelRequested;
    }

    method CorrelatePrompt(id: Id, e: Envelope) returns (settled: Option<Settlement>, cancel: bool)
      modifies this`pendingPrompts
      ensures Correlation(View(), settled, cancel) == Correlate(old(View()), id, e, read)
    {
      settled := None;
      cancel := MarkDispatched(id, e);
      match e.event {
        case Updated(PromptCancelled(cmid)) =>
          var i := PositionOfCmid(id, cmid);
          settled := Take(id, i, Stopped(Cancelled));
        case TurnEnd(stopReason) =>
          var i := PositionOfStarted(id);
          settled := Take(id, i, TurnOutcome(read, stopReason));
        case Lifecycle(status, _) =>
          if IdleStopReason(status).Some? {
            var i := PositionOfStarted(id);
            settled := Take(id, i, Stopped(IdleStopReason(status).value));
          }
        case _ =>
      }
    }

    method SettleIdlePrompt(id: Id) returns (settled: Option<Settlement>)
      modifies this`pendingPrompts
      ensures Settling(View(), settled) == SettleIdle(old(View()), id)
    {
      if id !in sessions || sessions[id].meta.None? {
        return None;
      }
      var reason := IdleStopReason(sessions[id].meta.value.status);
      if reason.None? {
        return None;
      }
      var i := PositionOfStarted(id);
      settled := Take(id, i, Stopped(reason.value));
    }

    method HandleLiveEnvelope(id: Id, e: Envelope)
      returns (settled: Option<Settlement>, cancel: bool, forward: seq<Envelope>)
      modifies this
      ensures LiveResult(View(), settled, cancel, forward) == HandleLiveEvent(old(View()), id, e, read)
    {
      var session := if id in sessions then sessions[id] else EMPTY_SESSION;
      if IsDuplicate(session, e) {
        sessions := sessions[id := session];
        cancel := MarkDispatched(id, e);
        return None, cancel, [];
      }
      sessions := sessions[id := ApplyLive(session, e)];
      settled, cancel := CorrelatePrompt(id, e);
      forward := LiveForward(session, e);
    }

    method CompleteCatchUp(id: Id, fetched: Option<Snapshot>)
      returns (settled: seq<Settlement>, events: Option<seq<Envelope>>)
      modifies this
      ensures CatchUpResult(View(), settled, events) == FinishCatchUp(old(View()), id, fetched, read)
    {
      if id !in sessions {
        return [], None;
      }
      var r := Cache.CompleteCatchUp(sessions[id], fetched);
      if r.None? {
        return [], None;
      }
      sessions := sessions[id := r.value.session];
      ghost var adopted := View();
      settled := [];
      var i := 0;
      while i < |r.value.hydrated|
        invariant i <= |r.value.hydrated|
        invariant ManySettled(View(), settled) == CorrelateAll(adopted, id, r.value.hydrated[..i], read)
      {
        assert r.value.hydrated[..i + 1][..i] == r.value.hydrated[..i];
        var one, _ := CorrelatePrompt(id, r.value.hydrated[i]);
        settled := settled + AsList(one);
        i := i + 1;
      }
      assert r.value.hydrated[..i] == r.value.hydrated;
      var idle := SettleIdlePrompt(id);
      settled := settled + AsList(idle);
      events := Some(r.value.events);
    }

    /** Adopts the daemon's list of sessions; returns the prompts whose session is gone. */
    method ApplySessionList(list: seq<Listed>) returns (orphaned: seq<Settlement>, ghost order: seq<Id>)
      modifies this
      ensures IsOrder(order, Deleted(old(View()), list))
      ensures ManySettled(View(), orphaned) == ApplyList(old(View()), list, order)
    {
      var i := 0;
      while i < |list|
        invariant i <= |list|
        invariant View() == old(View()).(sessions := Adopt(old(sessions), list[..i]))
      {
        assert list[..i + 1][..i] == list[..i];
        var l := list[i];
        var cached := if l.id in sessions then sessions[l.id] else EMPTY_SESSION;
        sessions := sessions[l.id := cached.(meta := Some(l.meta))];
        i := i + 1;
      }
      assert list[..i] == list;
      var gone := set id | id in sessions && id !in LiveIds(list)
        && (sessions[id].meta.Some? || id in deleteWaiters) :: id;
      orphaned, order := DeleteSessions(gone);
      sessions := map id | id in sessions && (sessions[id].meta.Some? || sessions[id].attached) :: sessions[id];
    }

    method DeleteSessions(ids: set<Id>) returns (orphaned: seq<Settlement>, ghost order: seq<Id>)
      modifies this
      ensures IsOrder(order, ids)
      ensures ManySettled(View(), orphaned) == DeleteAll(old(View()), order)
    {
      orphaned, order := [], [];
      var gone := ids;
      while gone != {}
        invariant ManySettled(View(), orphaned) == DeleteAll(old(View()), order)
        invariant IsOrder(order, ids - gone) && gone <= ids
        decreases |gone|
      {
        var id :| id in gone;
        gone := gone - {id};
        assert (order + [id])[..|order|] == order;
        var queue := if id in pendingPrompts then pendingPrompts[id] else [];
        orphaned := orphaned + Orphans(queue, DeletedOutcome(id in deleteWaiters));
        pendingPrompts := pendingPrompts - {id};
        deleteWaiters := deleteWaiters - {id};
        sessions := sessions - {id};
        order := order + [id];
      }
    }
  }
}
