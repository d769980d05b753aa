/** Which permission requests of a transcript still wait for an answer. */
module Permissions {
  import opened Results
  import opened Transcript

  /** `later` ends `request`: its id is asked again or answered, its tool finished, or its turn or worker ended. */
  predicate Ends(later: Event, request: Event)
    requires request.PermissionRequest?
  {
    match later
    case PermissionRequest(id, _) => id == request.requestId
    case PermissionResolved(id) => id == request.requestId
    case TurnEnd(_) => true
    case Lifecycle(status, _) => status.Crashed? || status.Interrupted? || status.Exited?
    case Updated(update) => update.ToolFinished? && request.toolCallId == Some(update.toolCallId)
  }

  predicate Ended(request: Event, later: seq<Envelope>)
    requires request.PermissionRequest?
  {
    exists j :: 0 <= j < |later| && Ends(later[j].event, request)
  }

  predicate Stopped(status: Status) {
    status in {Crashed, Interrupted, Exited}
  }

  /** A request is over once asked again or answered, its tool is done, its turn ended, or its worker stopped. */
  lemma EndsIff(later: Event, request: Event)
    requires request.PermissionRequest?
    ensures Ends(later, request) <==>
      || ((later.PermissionRequest? || later.PermissionResolved?) && later.requestId == request.requestId)
      || (later.Updated? && later.update.ToolFinished? && Some(later.update.toolCallId) == request.toolCallId)
      || later.TurnEnd?
      || (later.Lifecycle? && Stopped(later.status))
  {
  }

  /** The requests of `events` that no later one ends, in order. */
  function Unended(events: seq<Envelope>): seq<Envelope> {
    if events == [] then []
    else if events[0].event.PermissionRequest? && !Ended(events[0].event, events[1..]) then
      [events[0]] + Unended(events[1..])
    else Unended(events[1..])
  }

  /** The open requests that `later` does not end. */
  function Outlasting(open: seq<Envelope>, later: Event): (r: seq<Envelope>)
    requires forall i :: 0 <= i < |open| ==> open[i].event.PermissionRequest?
    ensures forall i :: 0 <= i < |r| ==> r[i].event.PermissionRequest?
  {
    if open == [] then []
    else if Ends(later, open[0].event) then Outlasting(open[1..], later)
    else [open[0]] + Outlasting(open[1..], later)
  }

  lemma {:induction false} OutlastingAppend(open: seq<Envelope>, last: Envelope, later: Event)
    requires forall i :: 0 <= i < |open| ==> open[i].event.PermissionRequest?
    requires last.event.PermissionRequest?
    ensures Outlasting(open + [last], later) ==
      Outlasting(open, later) + (if Ends(later, last.event) then [] else [last])
  {
    if open == [] {
    } else {
      assert (open + [last])[1..] == open[1..] + [last];
      OutlastingAppend(open[1..], last, later);
    }
  }

  lemma {:induction false} OutlastingNone(open: seq<Envelope>, later: Event)
    requires forall i :: 0 <= i < |open| ==> open[i].event.PermissionRequest?
    requires forall i :: 0 <= i < |open| ==> Ends(later, open[i].event)
    ensures Outlasting(open, later) == []
  {
    if open != [] {
      OutlastingNone(open[1..], later);
    }
  }

  lemma {:induction false} OutlastingAll(open: seq<Envelope>, later: Event)
    requires forall i :: 0 <= i < |open| ==> open[i].event.PermissionRequest?
    requires forall i :: 0 <= i < |open| ==> !Ends(later, open[i].event)
    ensures Outlasting(open, later) == open
  {
    if open != [] {
      OutlastingAll(open[1..], later);
    }
  }

  lemma {:induction false} UnendedRequests(events: seq<Envelope>)
    ensures forall i :: 0 <= i < |Unended(events)| ==> Unended(events)[i].event.PermissionRequest?
  {
    if events != [] {
      UnendedRequests(events[1..]);
    }
  }

  lemma EndedAppend(request: Event, later: seq<Envelope>, e: Envelope)
    requires request.PermissionRequest?
    ensures Ended(request, later + [e]) <==> Ended(request, later) || Ends(e.event, request)
  {
    assert (later + [e])[|later|] == e;
    assert forall j :: 0 <= j < |later| ==> (later + [e])[j] == later[j];
  }

  /** One more event: what it does not end stays, and a request is added. */
  lemma {:induction false} UnendedAppend(events: seq<Envelope>, e: Envelope)
    ensures forall i :: 0 <= i < |Unended(events)| ==> Unended(events)[i].event.PermissionRequest?
    ensures Unended(events + [e]) ==
      Outlasting(Unended(events), e.event) + (if e.event.PermissionRequest? then [e] else [])
  {
    UnendedRequests(events);
    if events == [] {
      assert (events + [e])[1..] == [];
      assert events + [e] == [e];
    } else {
      assert (events + [e])[1..] == events[1..] + [e];
      UnendedAppend(events[1..], e);
      if events[0].event.PermissionRequest? {
        EndedAppend(events[0].event, events[1..], e);
      }
    }
  }

  /** The listed requests whose id or tool does not match. */
  method Retain(open: seq<Envelope>, e: Event) returns (kept: seq<Envelope>)
    requires forall i :: 0 <= i < |open| ==> open[i].event.PermissionRequest?
    ensures kept == Outlasting(open, e)
  {
    kept := [];
    var i := 0;
    while i < |open|
      invariant i <= |open| && kept == Outlasting(open[..i], e)
    {
      assert open[..i + 1] == open[..i] + [open[i]];
      OutlastingAppend(open[..i], open[i], e);
      if !Ends(e, open[i].event) {
        kept := kept + [open[i]];
      }
      i := i + 1;
    }
    assert open[..i] == open;
  }

  /** Permission requests still awaiting an answer at the end of `events`. */
  method UnresolvedPermissionRequests(events: seq<Envelope>) returns (open: seq<Envelope>)
    ensures open == Unended(events)
  {
    open := [];
    var i := 0;
    while i < |events|
      invariant i <= |events| && open == Unended(events[..i])
    {
      var e := events[i];
      assert events[..i + 1] == events[..i] + [e];
      UnendedAppend(events[..i], e);
      match e.event {
        case PermissionRequest(_, _) =>
          open := Retain(open, e.event);
          open := open + [e];
        case PermissionResolved(_) =>
          open := Retain(open, e.event);
        case TurnEnd(_) =>
          OutlastingNone(open, e.event);
          open := [];
        case Lifecycle(status, _) =>
          if status.Crashed? || status.Interrupted? || status.Exited? {
            OutlastingNone(open, e.event);
            open := [];
          } else {
            OutlastingAll(open, e.event);
          }
        case Updated(update) =>
          if update.ToolFinished? {
            open := Retain(open, e.event);
          } else {
            OutlastingAll(open, e.event);
          }
      }
      i := i + 1;
    }
    assert events[..i] == events;
  }

  /** Exactly the requests that no later event ends are returned. */
  lemma {:induction false} UnendedIff(events: seq<Envelope>, e: Envelope)
    ensures e in Unended(events) <==>
      exists i :: 0 <= i < |events| && events[i] == e && e.event.PermissionRequest? && !Ended(e.event, events[i + 1..])
  {
    if events != [] {
      UnendedIff(events[1..], e);
      if e in Unended(events[1..]) {
        var i :| 0 <= i < |events| - 1 && events[1..][i] == e && e.event.PermissionRequest?
          && !Ended(e.event, events[1..][i + 1..]);
        assert events[1..][i + 1..] == events[i + 2..];
        assert events[i + 1] == e;
      }
      if i :| 0 <= i < |events| && events[i] == e && e.event.PermissionRequest? && !Ended(e.event, events[i + 1..]) {
        if i > 0 {
          assert events[1..][i - 1] == e && events[1..][i..] == events[i + 1..];
        }
      }
    }
  }

  /** Folding only the missed part of a transcript leaves the same requests of that part open. */
  lemma {:induction false} SuffixAgrees(before: seq<Envelope>, missed: seq<Envelope>) returns (earlier: seq<Envelope>)
    ensures Unended(before + missed) == earlier + Unended(missed)
    ensures forall e :: e in earlier ==> e in before
  {
    if before == [] {
      assert before + missed == missed;
      earlier := [];
    } else {
      earlier := SuffixAgrees(before[1..], missed);
      assert (before + missed)[1..] == before[1..] + missed;
      if before[0].event.PermissionRequest? && !Ended(before[0].event, before[1..] + missed) {
        PrefixJoin(before[0], earlier, Unended(missed));
        earlier := [before[0]] + earlier;
      }
    }
  }

  lemma PrefixJoin(e: Envelope, a: seq<Envelope>, b: seq<Envelope>)
    ensures [e] + (a + b) == ([e] + a) + b
  {
  }
}
