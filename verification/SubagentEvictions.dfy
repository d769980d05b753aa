/** Which children a step may evict, and how long an evicted one is remembered. */
module SubagentEvictions {
  import opened Results
  import opened Texts
  import opened SubagentFold
  import opened SubagentLaws
  import opened SubagentRuns

  /** The same children, in the same order, and the same retired ids. */
  predicate SameBooks(a: State, b: State) {
    a.children.Keys == b.children.Keys && a.order == b.order && a.retired == b.retired
      && a.retiredOrder == b.retiredOrder
  }

  ghost predicate SameWork(a: State, b: State) {
    forall id :: id in a.children && id in b.children ==> (a.children[id].Working() <==> b.children[id].Working())
  }

  /** `b` has the books of `a`, or of `a` after one new id was admitted. */
  ghost predicate StepBooks(a: State, b: State) {
    || SameBooks(a, b)
    || exists id: Bytes, parent: Option<Bytes> :: id !in a.children && SameBooks(Insert(a, id, parent), b)
  }

  /* What each operation does to the books. */

  lemma {:induction false} PublishAllSame(s: State, ids: seq<Bytes>, now: nat, nowMs: nat)
    ensures SameBooks(s, PublishAll(s, ids, now, nowMs).state)
  {
    if ids != [] {
      PublishAllSame(s, ids[..|ids| - 1], now, nowMs);
    }
  }

  lemma {:induction false} SilenceAllSame(s: State, ids: seq<Bytes>, now: nat, nowMs: nat)
    ensures SameBooks(s, SilenceAll(s, ids, now, nowMs).state)
  {
    if ids != [] {
      SilenceAllSame(s, ids[..|ids| - 1], now, nowMs);
    }
  }

  lemma AbsorbSame(s: State, id: Bytes, u: Update, now: nat)
    ensures SameBooks(s, Absorb(s, id, u, now).state)
  {
  }

  lemma LinkMessageSame(s: State, transcript: Bytes, u: Update)
    requires u.IsMessage()
    ensures SameBooks(s, LinkMessage(s, transcript, u).state)
  {
  }

  lemma {:induction false} SameFirstIdle(a: State, b: State, i: nat)
    requires SameBooks(a, b) && SameWork(a, b) && i <= |a.order|
    ensures FirstIdle(a.children, a.order, i) == FirstIdle(b.children, b.order, i)
    decreases |a.order| - i
  {
    if i < |a.order| {
      assert a.order[i] in a.children <==> a.order[i] in b.children;
      SameFirstIdle(a, b, i + 1);
    }
  }

  lemma SameExpire(a: State, b: State)
    requires SameBooks(a, b)
    ensures SameBooks(Expire(a), Expire(b))
  {
  }

  lemma SameEvict(a: State, b: State)
    requires SameBooks(a, b) && SameWork(a, b)
    ensures SameBooks(Evict(a), Evict(b))
  {
    if a.order != [] {
      var i := Victim(a.children, a.order);
      assert Victim(b.children, b.order) == i by { SameFirstIdle(a, b, 0); }
      SameExpire(Removed(a, i), Removed(b, i));
    }
  }

  lemma SameRoomy(a: State, b: State)
    requires SameBooks(a, b) && SameWork(a, b)
    ensures SameBooks(Roomy(a), Roomy(b))
  {
    assert |a.children| == |a.children.Keys| && |b.children| == |b.children.Keys|;
    SameEvict(a, b);
  }

  lemma SameAdmit(a: State, b: State, id: Bytes, parent: Option<Bytes>)
    requires SameBooks(a, b)
    ensures SameBooks(Admit(a, id, parent), Admit(b, id, parent))
  {
  }

  lemma SameInsert(a: State, b: State, id: Bytes, parent: Option<Bytes>)
    requires SameBooks(a, b) && SameWork(a, b)
    ensures SameBooks(Insert(a, id, parent), Insert(b, id, parent))
  {
    SameRoomy(Unretired(a, id), Unretired(b, id));
    SameAdmit(Roomy(Unretired(a, id)), Roomy(Unretired(b, id)), id, parent);
  }

  lemma AnnounceBooks(s: State, parent: Option<Bytes>, u: Update, now: nat, nowMs: nat)
    requires u.SubagentUpdate?
    ensures StepBooks(s, Announce(s, parent, u, now, nowMs).state)
  {
    if u.sessionId.Some? && u.sessionId.value != [] && u.sessionId != parent {
      var id := u.sessionId.value;
      var known := if id in s.children then s else Insert(s, id, parent);
      InsertedChildren(s, id, parent);
      assert SameBooks(known, Announce(s, parent, u, now, nowMs).state);
    }
  }

  lemma StepBooksAfter(a: State, b: State, c: State)
    requires StepBooks(a, b) && SameBooks(b, c)
    ensures StepBooks(a, c)
  {
  }

  lemma StepBooksBefore(a: State, b: State, c: State)
    requires SameBooks(a, b) && SameWork(a, b) && StepBooks(b, c)
    ensures StepBooks(a, c)
  {
    if !SameBooks(b, c) {
      var id: Bytes, parent: Option<Bytes> :| id !in b.children && SameBooks(Insert(b, id, parent), c);
      SameInsert(a, b, id, parent);
    }
  }

  lemma RouteChildBooks(s: State, id: Bytes, u: Update, now: nat, nowMs: nat)
    requires id in s.children
    ensures StepBooks(s, RouteChild(s, id, u, now, nowMs).state)
  {
    var touched := Touch(s, id, now);
    if u.SubagentUpdate? {
      var announced := Announce(touched, Some(id), u, now, nowMs);
      AnnounceBooks(touched, Some(id), u, now, nowMs);
      StepBooksBefore(s, touched, announced.state);
      StepBooksAfter(s, announced.state, RouteChild(s, id, u, now, nowMs).state);
    } else {
      AbsorbSame(touched, id, u, now);
    }
  }

  /** A step admits at most one new child. */
  lemma EffectBooks(s: State, step: Step)
    ensures StepBooks(s, Effect(s, step).state)
  {
    if step.Routing? {
      var id, u := step.id, step.update;
      if id in s.children {
        RouteChildBooks(s, id, u, step.now, step.nowMs);
      } else if id !in s.retired {
        if u.SubagentUpdate? {
          AnnounceBooks(s, None, u, step.now, step.nowMs);
        } else {
          var linked := if u.IsMessage() then LinkMessage(s, id, u) else LinkOutcome(s, None);
          if u.IsMessage() {
            LinkMessageSame(s, id, u);
          }
          PublishAllSame(linked.state, DueIds(linked.state, linked.state.order, step.now), step.now, step.nowMs);
        }
      }
    } else if step.Dueing? {
      PublishAllSame(s, DueIds(s, s.order, step.now), step.now, step.nowMs);
    } else if step.Quieting? {
      SilenceAllSame(s, SilentIds(s, s.order, step.now), step.now, step.nowMs);
    }
  }

  /* Fair eviction. */

  function Gone(a: State, b: State): set<Bytes> {
    a.children.Keys - b.children.Keys
  }

  /** `id` is the oldest child at work on nothing, or the oldest of all when every child works. */
  ghost predicate MayGo(s: State, id: Bytes) {
    exists i: nat ::
      && i < |s.order| && s.order[i] == id && id in s.children
      && (forall k :: 0 <= k < i ==> s.order[k] in s.children && s.children[s.order[k]].Working())
      && (s.children[id].Working() ==> i == 0 && forall x :: x in s.children ==> s.children[x].Working())
  }

  lemma VictimMayGo(s: State)
    requires Books(s) && |s.children| >= MAX_CHILDREN
    ensures MayGo(s, s.order[Victim(s.children, s.order)])
  {
    VictimExists(s);
    var i := Victim(s.children, s.order);
    assert s.order[i] in s.children;
    if FirstIdle(s.children, s.order, 0) == |s.order| {
      forall x | x in s.children ensures s.children[x].Working() {
        assert x in s.order;
      }
    }
  }

  /** The child that makes room for a new one, if any must. */
  function Going(s: State): set<Bytes> {
    var i := Victim(s.children, s.order);
    if |s.children| >= MAX_CHILDREN && i < |s.order| then {s.order[i]} else {}
  }

  lemma RoomyGone(s: State)
    requires Books(s)
    ensures Roomy(s).children.Keys == s.children.Keys - Going(s) && Going(s) <= s.children.Keys
  {
    if |s.children| >= MAX_CHILDREN {
      VictimExists(s);
      EvictBooks(s);
      assert s.order[Victim(s.children, s.order)] in s.order;
    }
  }

  lemma UnretiredGoing(s: State, id: Bytes)
    ensures Going(Unretired(s, id)) == Going(s) && Unretired(s, id).children == s.children
  {
  }

  lemma InsertGone(s: State, id: Bytes, parent: Option<Bytes>)
    requires Books(s) && id !in s.children
    ensures Gone(s, Insert(s, id, parent)) == Going(s)
  {
    var known := Unretired(s, id);
    UnretiredBooks(s, id);
    UnretiredGoing(s, id);
    RoomyGone(known);
    AdmitGone(s, Roomy(known), id, parent, Going(s));
  }

  lemma AdmitGone(s: State, roomy: State, id: Bytes, parent: Option<Bytes>, gone: set<Bytes>)
    requires id !in s.children && roomy.children.Keys == s.children.Keys - gone && gone <= s.children.Keys
    ensures Gone(s, Admit(roomy, id, parent)) == gone
  {
  }

  /** At most one child goes, only at the cap, and a working one only when all are working. */
  ghost predicate Fair(s: State, gone: set<Bytes>) {
    && |gone| <= 1
    && (gone != {} ==> |s.children| == MAX_CHILDREN)
    && forall id :: id in gone ==> MayGo(s, id)
  }

  lemma GoingFair(s: State)
    requires Books(s)
    ensures Fair(s, Going(s))
  {
    ListsLength(s.order, s.children.Keys);
    if |s.children| >= MAX_CHILDREN {
      VictimMayGo(s);
    }
  }

  lemma InsertFair(s: State, id: Bytes, parent: Option<Bytes>)
    requires Books(s) && id !in s.children
    ensures Fair(s, Gone(s, Insert(s, id, parent)))
  {
    assert Fair(s, Going(s)) by {
      GoingFair(s);
    }
    InsertGone(s, id, parent);
  }

  lemma EvictionFair(s: State, step: Step)
    requires Books(s)
    ensures Fair(s, Gone(s, Effect(s, step).state))
  {
    EffectBooks(s, step);
    var after := Effect(s, step).state;
    if SameBooks(s, after) {
      assert Gone(s, after) == {};
    } else {
      var id: Bytes, parent: Option<Bytes> :| id !in s.children && SameBooks(Insert(s, id, parent), after);
      InsertFair(s, id, parent);
      assert Gone(s, after) == Gone(s, Insert(s, id, parent));
    }
  }

  /* Memory of the evicted. */

  /** How many evictions ago `id` was retired: 1 for the latest. */
  function AgeIn(q: seq<Bytes>, id: Bytes): nat {
    if q == [] || q[|q| - 1] == id then 1 else 1 + AgeIn(q[..|q| - 1], id)
  }

  function Age(s: State, id: Bytes): nat {
    if id in s.children then 0
    else if id in s.retired then AgeIn(s.retiredOrder, id)
    else MAX_RETIRED + 1
  }

  lemma {:induction false} AgeAt(q: seq<Bytes>, i: nat)
    requires NoRepeats(q) && i < |q|
    ensures AgeIn(q, q[i]) == |q| - i
  {
    if i < |q| - 1 {
      AgeAt(q[..|q| - 1], i);
    }
  }

  lemma {:induction false} AgeWithout(q: seq<Bytes>, x: Bytes, id: Bytes)
    requires id in q && id != x
    ensures id in Without(q, x) && AgeIn(Without(q, x), id) <= AgeIn(q, id)
  {
    var last := |q| - 1;
    if q[last] != id {
      assert id in q[..last];
      AgeWithout(q[..last], x, id);
      if q[last] != x {
        assert (Without(q[..last], x) + [q[last]])[..|Without(q[..last], x)|] == Without(q[..last], x);
      }
    } else {
      assert (Without(q[..last], x) + [id])[|Without(q[..last], x)|] == id;
    }
  }

  lemma AgePushed(q: seq<Bytes>, gone: Bytes, id: Bytes)
    requires id in q && id != gone
    ensures AgeIn(q + [gone], id) == AgeIn(q, id) + 1
  {
    assert (q + [gone])[..|q|] == q;
  }

  /** Dropping the oldest retired ids drops only those of an age past the cap. */
  lemma AgeExpired(q: seq<Bytes>, n: nat, id: Bytes)
    requires NoRepeats(q) && n <= |q| && id in q
    ensures id in q[n..] ==> AgeIn(q[n..], id) == AgeIn(q, id)
    ensures id !in q[n..] ==> AgeIn(q, id) > |q| - n
  {
    var i :| 0 <= i < |q| && q[i] == id;
    AgeAt(q, i);
    if i >= n {
      assert q[n..][i - n] == id;
      AgeAt(q[n..], i - n);
    }
  }

  lemma EvictAges(s: State, id: Bytes)
    requires Books(s) && |s.children| >= MAX_CHILDREN
    ensures Age(Evict(s), id) <= Age(s, id) + 1
  {
    VictimExists(s);
    var gone := s.order[Victim(s.children, s.order)];
    assert gone in s.children;
    var full := s.retiredOrder + [gone];
    AddLists(s.retiredOrder, s.retired, gone);
    assert |full| <= MAX_RETIRED + 1;
    var n := if |full| > MAX_RETIRED then 1 else 0;
    assert Evict(s).retiredOrder == full[n..];
    ExpireLists(full, s.retired + {gone}, n);
    if id == gone {
      AgeExpired(full, n, id);
      assert full[|full| - 1] == id;
    } else if id in s.retired {
      AgePushed(s.retiredOrder, gone, id);
      AgeExpired(full, n, id);
    }
  }

  lemma UnretiredAges(s: State, x: Bytes, id: Bytes)
    requires id != x
    ensures id in s.retired && id in s.retiredOrder ==> Age(Unretired(s, x), id) <= Age(s, id)
    ensures id !in s.retired ==> Age(Unretired(s, x), id) == Age(s, id)
  {
    if id in s.retiredOrder {
      AgeWithout(s.retiredOrder, x, id);
    }
  }

  lemma AdmitAges(s: State, x: Bytes, parent: Option<Bytes>, id: Bytes)
    ensures Age(Admit(s, x, parent), id) <= Age(s, id)
  {
  }

  lemma InsertAges(s: State, x: Bytes, parent: Option<Bytes>, id: Bytes)
    requires Books(s) && x !in s.children
    ensures Age(Insert(s, x, parent), id) <= Age(s, id) + |Gone(s, Insert(s, x, parent))|
  {
    if id == x {
      InsertedChildren(s, x, parent);
    } else {
      var known := Unretired(s, x);
      UnretiredBooks(s, x);
      InsertGone(s, x, parent);
      UnretiredAges(s, x, id);
      if |s.children| >= MAX_CHILDREN {
        EvictAges(known, id);
      }
      AdmitAges(Roomy(known), x, parent, id);
    }
  }

  lemma SameAges(a: State, b: State, id: Bytes)
    requires SameBooks(a, b)
    ensures Age(a, id) == Age(b, id)
  {
    assert id in a.children <==> id in a.children.Keys;
  }

  lemma BooksAge(s: State, after: State, id: Bytes)
    requires Books(s) && StepBooks(s, after)
    ensures Age(after, id) <= Age(s, id) + |Gone(s, after)|
  {
    if !SameBooks(s, after) {
      var x: Bytes, parent: Option<Bytes> :| x !in s.children && SameBooks(Insert(s, x, parent), after);
      InsertAges(s, x, parent, id);
      SameGone(s, Insert(s, x, parent), after, id);
    } else {
      SameAges(s, after, id);
    }
  }

  lemma SameGone(s: State, a: State, b: State, id: Bytes)
    requires SameBooks(a, b)
    ensures Age(a, id) == Age(b, id) && Gone(s, a) == Gone(s, b)
  {
    SameAges(a, b, id);
  }

  /** An id ages by at most one with each eviction. */
  lemma StepAges(s: State, step: Step, id: Bytes)
    requires Books(s)
    ensures Age(Effect(s, step).state, id) <= Age(s, id) + |Gone(s, Effect(s, step).state)|
  {
    EffectBooks(s, step);
    BooksAge(s, Effect(s, step).state, id);
  }

  /** The number of children evicted over a run. */
  function Evictions(t: Trace, steps: seq<Step>): nat {
    if steps == [] then 0
    else
      var before := Exec(t, steps[..|steps| - 1]);
      Evictions(t, steps[..|steps| - 1]) + |Gone(before.state, Apply(before, steps[|steps| - 1]).state)|
  }

  lemma {:induction false} RunAges(t: Trace, steps: seq<Step>, id: Bytes)
    requires Inv(t, {})
    ensures Inv(Exec(t, steps), {})
    ensures Age(Exec(t, steps).state, id) <= Age(t.state, id) + Evictions(t, steps)
  {
    if steps != [] {
      var before := Exec(t, steps[..|steps| - 1]);
      RunAges(t, steps[..|steps| - 1], id);
      StepKeeps(before, steps[|steps| - 1]);
      StepAges(before.state, steps[|steps| - 1], id);
    }
  }

  /**
   * Once a child, an id stays owned: only after its own eviction and 1024 later ones may it be forgotten.
   * While it is owned, nothing it sends reaches the root timeline, and once retired nothing it sends changes anything.
   */
  lemma OwnedStaysOut(past: seq<Step>, steps: seq<Step>, id: Bytes, u: Update, now: nat, nowMs: nat)
    requires id in Exec(START, past).state.children
    ensures
      var t := Exec(START, past);
      var s := Exec(t, steps).state;
      && (Evictions(t, steps) <= MAX_RETIRED ==> s.Owns(id))
      && (s.Owns(id) ==> !Route(s, id, u, now, nowMs).root)
      && (id in s.retired ==> Route(s, id, u, now, nowMs) == Routed(s, false, []))
  {
    RunKeeps(past);
    RunAges(Exec(START, past), steps, id);
    var s := Exec(Exec(START, past), steps).state;
    assert Books(s);
  }
}
