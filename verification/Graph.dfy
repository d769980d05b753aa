/**
 * Ordering a graph of prerequisites: the loop that repeatedly takes the first node
 * with nothing left to wait for, against what such an order means.
 */
module Graph {
  import opened Strings
  import opened Orders
  import opened Results

  type Deps = map<Str, set<Str>>

  ghost function Members(s: seq<Str>): set<Str> {
    set x | x in s
  }

  ghost predicate Distinct(s: seq<Str>) {
    forall i, j :: 0 <= i < j < |s| ==> s[i] != s[j]
  }

  /** The node at `i` waits only for nodes of `done` or earlier ones of `s`. */
  ghost predicate Served(s: seq<Str>, deps: Deps, done: set<Str>, i: nat) {
    i < |s| ==> s[i] in deps && deps[s[i]] <= done + Members(s[..i])
  }

  ghost predicate AfterPrerequisites(s: seq<Str>, deps: Deps, done: set<Str>) {
    forall i: nat :: Served(s, deps, done, i)
  }

  /** A duplicate-free listing of all nodes, each after its prerequisites. */
  ghost predicate Topological(order: seq<Str>, deps: Deps) {
    && Distinct(order) && Members(order) == deps.Keys
    && AfterPrerequisites(order, deps, {})
  }

  /** A non-empty walk along prerequisites that returns to its start. */
  ghost predicate IsCycle(p: seq<Str>, deps: Deps) {
    |p| >= 2 && p[0] == p[|p| - 1] && IsWalk(p, deps)
  }

  ghost predicate IsWalk(p: seq<Str>, deps: Deps) {
    forall i :: 0 <= i < |p| - 1 ==> p[i] in deps && p[i + 1] in deps[p[i]]
  }

  ghost predicate Acyclic(deps: Deps) {
    forall p :: !IsCycle(p, deps)
  }

  ghost predicate Closed(deps: Deps) {
    forall x, d :: x in deps && d in deps[x] ==> d in deps
  }

  /** `a` comes no later than `b` in dictionary order, node by node. */
  ghost predicate NoLater(a: seq<Str>, b: seq<Str>) {
    a == b || exists k: nat :: FirstDifference(a, b, k)
  }

  ghost predicate IsLeast(order: seq<Str>, deps: Deps) {
    forall other :: Topological(other, deps) ==> NoLater(order, other)
  }

  ghost predicate FirstDifference(a: seq<Str>, b: seq<Str>, k: nat) {
    k < |a| && k < |b| && a[..k] == b[..k] && Compare(a[k], b[k]) < 0
  }

  /* What the loop computes. */

  predicate Ready(x: Str, deps: Deps, done: set<Str>) {
    x in deps && deps[x] <= done
  }

  function FirstReady(remaining: seq<Str>, deps: Deps, done: set<Str>): (i: nat)
    ensures i <= |remaining|
    ensures i < |remaining| ==> Ready(remaining[i], deps, done)
    ensures forall j :: 0 <= j < i ==> !Ready(remaining[j], deps, done)
  {
    if remaining == [] || Ready(remaining[0], deps, done) then 0
    else 1 + FirstReady(remaining[1..], deps, done)
  }

  function Without(s: seq<Str>, i: nat): seq<Str>
    requires i < |s|
  {
    s[..i] + s[i + 1..]
  }

  function Greedy(remaining: seq<Str>, deps: Deps, done: set<Str>): Option<seq<Str>>
    decreases |remaining|
  {
    if remaining == [] then Some([])
    else
      var i := FirstReady(remaining, deps, done);
      if i == |remaining| then None
      else
        var others := Greedy(Without(remaining, i), deps, done + {remaining[i]});
        if others.None? then None else Some([remaining[i]] + others.value)
  }

  function Prepend(order: seq<Str>, rest: Option<seq<Str>>): Option<seq<Str>> {
    if rest.None? then None else Some(order + rest.value)
  }

  lemma WithoutMembers(s: seq<Str>, i: nat)
    requires i < |s| && Distinct(s)
    ensures Distinct(Without(s, i))
    ensures Members(Without(s, i)) == Members(s) - {s[i]}
    ensures Sorted(s, Compare) ==> Sorted(Without(s, i), Compare)
  {
    var t := Without(s, i);
    assert forall k :: 0 <= k < |t| ==> t[k] == if k < i then s[k] else s[k + 1];
    forall x | x in s && x != s[i] ensures x in t {
      var k :| 0 <= k < |s| && s[k] == x;
      assert k < i ==> t[k] == x;
      assert k > i ==> t[k - 1] == x;
    }
    forall x | x in t ensures x in s && x != s[i] {
      var k :| 0 <= k < |t| && t[k] == x;
    }
  }

  /** The loop of the linker; `remaining` is the insertion order of the source's map. */
  method DependencyOrder(ids: seq<Str>, prerequisites: Deps) returns (r: Option<seq<Str>>)
    requires Distinct(ids) && Members(ids) == prerequisites.Keys
    ensures r == Greedy(ids, prerequisites, {})
  {
    var order: seq<Str> := [];
    var remaining := ids;
    var dependencies := prerequisites;
    ghost var done: set<Str> := {};
    GreedyStart(ids, prerequisites);
    while remaining != []
      invariant Tracks(remaining, dependencies, prerequisites, done)
      invariant Greedy(ids, prerequisites, {}) == Prepend(order, Greedy(remaining, prerequisites, done))
      decreases |remaining|
    {
      var i := FindReady(remaining, dependencies);
      ReadyAgrees(remaining, dependencies, prerequisites, done, i);
      if i == |remaining| {
        return None;
      }
      var ready := remaining[i];
      GreedyStep(order, remaining, prerequisites, done);
      dependencies := Delete(remaining, i, dependencies, prerequisites, done);
      remaining := Without(remaining, i);
      order := order + [ready];
      done := done + {ready};
    }
    assert order + [] == order;
    return Some(order);
  }

  /** The map of the loop holds, for every node not yet emitted, what it still waits for. */
  ghost predicate Tracks(remaining: seq<Str>, dependencies: Deps, prerequisites: Deps, done: set<Str>) {
    && Distinct(remaining) && Members(remaining) == dependencies.Keys <= prerequisites.Keys
    && forall x :: x in dependencies ==> dependencies[x] == prerequisites[x] - done
  }

  lemma GreedyStart(ids: seq<Str>, deps: Deps)
    ensures Greedy(ids, deps, {}) == Prepend([], Greedy(ids, deps, {}))
    ensures forall x :: x in deps ==> deps[x] == deps[x] - {}
  {
    var r := Greedy(ids, deps, {});
    assert r.Some? ==> [] + r.value == r.value;
  }

  lemma GreedyStep(order: seq<Str>, remaining: seq<Str>, deps: Deps, done: set<Str>)
    requires FirstReady(remaining, deps, done) < |remaining|
    ensures
      var i := FirstReady(remaining, deps, done);
      Prepend(order, Greedy(remaining, deps, done))
        == Prepend(order + [remaining[i]], Greedy(Without(remaining, i), deps, done + {remaining[i]}))
  {
    var i := FirstReady(remaining, deps, done);
    var rest := Greedy(Without(remaining, i), deps, done + {remaining[i]});
    if rest.Some? {
      assert order + ([remaining[i]] + rest.value) == (order + [remaining[i]]) + rest.value;
    }
  }

  method Delete(remaining: seq<Str>, i: nat, dependencies: Deps, ghost prerequisites: Deps, ghost done: set<Str>)
    returns (r: Deps)
    requires i < |remaining| && Tracks(remaining, dependencies, prerequisites, done)
    ensures Tracks(Without(remaining, i), r, prerequisites, done + {remaining[i]})
  {
    WithoutMembers(remaining, i);
    r := dependencies - {remaining[i]};
    var others := Without(remaining, i);
    forall x | x in others ensures x in r {
      assert x in Members(others);
    }
    r := DeleteEverywhere(others, r, remaining[i]);
    forall x | x in r ensures r[x] == prerequisites[x] - (done + {remaining[i]}) {
      assert x in Members(others);
      assert prerequisites[x] - done - {remaining[i]} == prerequisites[x] - (done + {remaining[i]});
    }
  }

  method FindReady(remaining: seq<Str>, dependencies: Deps) returns (i: nat)
    requires forall x :: x in remaining ==> x in dependencies
    ensures i <= |remaining|
    ensures i < |remaining| ==> dependencies[remaining[i]] == {}
    ensures forall j :: 0 <= j < i ==> dependencies[remaining[j]] != {}
  {
    i := 0;
    while i < |remaining| && dependencies[remaining[i]] != {}
      invariant i <= |remaining|
      invariant forall j :: 0 <= j < i ==> dependencies[remaining[j]] != {}
    {
      i := i + 1;
    }
  }

  method DeleteEverywhere(remaining: seq<Str>, dependencies: Deps, ready: Str) returns (r: Deps)
    requires Distinct(remaining) && forall x :: x in remaining ==> x in dependencies
    ensures r.Keys == dependencies.Keys
    ensures forall x :: x in r ==> r[x] == if x in remaining then dependencies[x] - {ready} else dependencies[x]
  {
    r := dependencies;
    for i := 0 to |remaining|
      invariant r.Keys == dependencies.Keys
      invariant forall x :: x in r ==>
        r[x] == if x in remaining[..i] then dependencies[x] - {ready} else dependencies[x]
    {
      var x := remaining[i];
      assert x !in remaining[..i];
      r := r[x := r[x] - {ready}];
      assert remaining[..i + 1] == remaining[..i] + [x];
    }
    assert remaining[..|remaining|] == remaining;
  }

  lemma EmptyDifference<T>(a: set<T>, b: set<T>)
    ensures a - b == {} <==> a <= b
  {
    if a - b == {} {
      forall x | x in a ensures x in b {
        assert x in b || x in a - b;
      }
    }
  }

  lemma ReadyAgrees(remaining: seq<Str>, dependencies: Deps, prerequisites: Deps, done: set<Str>, i: nat)
    requires Tracks(remaining, dependencies, prerequisites, done)
    requires i <= |remaining|
    requires i < |remaining| ==> remaining[i] in dependencies && dependencies[remaining[i]] == {}
    requires forall j :: 0 <= j < i ==> remaining[j] in dependencies && dependencies[remaining[j]] != {}
    ensures i == FirstReady(remaining, prerequisites, done)
  {
    var k := FirstReady(remaining, prerequisites, done);
    forall j | 0 <= j < |remaining|
      ensures Ready(remaining[j], prerequisites, done) <==> dependencies[remaining[j]] == {}
    {
      assert remaining[j] in Members(remaining);
      EmptyDifference(prerequisites[remaining[j]], done);
    }
    assert k < |remaining| ==> remaining[k] in Members(remaining);
    assert i < |remaining| ==> Ready(remaining[i], prerequisites, done);
  }

  /* The order is topological and least. */

  lemma {:induction false} GreedyTopological(remaining: seq<Str>, deps: Deps, done: set<Str>)
    requires Distinct(remaining) && Members(remaining) <= deps.Keys
    requires Greedy(remaining, deps, done).Some?
    ensures
      var order := Greedy(remaining, deps, done).value;
      Distinct(order) && Members(order) == Members(remaining) && AfterPrerequisites(order, deps, done)
    decreases |remaining|
  {
    if remaining != [] {
      var i := FirstReady(remaining, deps, done);
      var x := remaining[i];
      var tail := Greedy(Without(remaining, i), deps, done + {x}).value;
      WithoutMembers(remaining, i);
      GreedyTopological(Without(remaining, i), deps, done + {x});
      assert x !in Members(tail);
      ConsOrder(x, tail, deps, done);
      assert Members(remaining) == {x} + Members(tail) by { assert x in Members(remaining); }
    }
  }

  lemma ConsOrder(x: Str, tail: seq<Str>, deps: Deps, done: set<Str>)
    requires Distinct(tail) && x !in Members(tail) && Ready(x, deps, done)
    requires AfterPrerequisites(tail, deps, done + {x})
    ensures Distinct([x] + tail) && Members([x] + tail) == {x} + Members(tail)
    ensures AfterPrerequisites([x] + tail, deps, done)
  {
    var order := [x] + tail;
    forall k: nat ensures Served(order, deps, done, k) {
      if 0 < k < |order| {
        assert Served(tail, deps, done + {x}, k - 1);
        assert order[k] == tail[k - 1];
        assert order[..k] == [x] + tail[..k - 1];
      }
    }
  }

  /** The first ready node is no greater than the head of any other order. */
  lemma FirstIsLeast(remaining: seq<Str>, deps: Deps, done: set<Str>, other: seq<Str>) returns (i: nat)
    requires remaining != [] && Sorted(remaining, Compare) && Members(remaining) <= deps.Keys
    requires Members(other) == Members(remaining)
    requires AfterPrerequisites(other, deps, done)
    ensures i == FirstReady(remaining, deps, done) < |remaining| && Ready(remaining[i], deps, done)
    ensures other != [] && Compare(remaining[i], other[0]) <= 0
  {
    i := FirstReady(remaining, deps, done);
    assert remaining[0] in Members(other);
    var y := other[0];
    assert y in Members(remaining);
    var j :| 0 <= j < |remaining| && remaining[j] == y;
    assert Ready(y, deps, done) by {
      assert Served(other, deps, done, 0);
    }
    assert i <= j;
    CompareZero(y, y);
  }

  lemma {:induction false} GreedyLeast(remaining: seq<Str>, deps: Deps, done: set<Str>, other: seq<Str>)
    requires Distinct(remaining) && Sorted(remaining, Compare) && Members(remaining) <= deps.Keys
    requires Distinct(other) && Members(other) == Members(remaining)
    requires AfterPrerequisites(other, deps, done)
    ensures Greedy(remaining, deps, done).Some?
    ensures NoLater(Greedy(remaining, deps, done).value, other)
    decreases |remaining|
  {
    if remaining == [] {
      NoMembers(remaining);
      NoMembers(other);
    } else {
      var i := FirstIsLeast(remaining, deps, done, other);
      var x, y := remaining[i], other[0];
      OthersFollow(remaining, deps, done, other, i);
      var rest := Greedy(Without(remaining, i), deps, done + {x});
      if x == y {
        assert other == [y] + other[1..];
        WithoutMembers(remaining, i);
        DropFirst(other, deps, done);
        GreedyLeast(Without(remaining, i), deps, done + {x}, other[1..]);
        NoLaterCons(x, rest.value, other[1..]);
      } else {
        CompareZero(x, y);
        assert FirstDifference(Greedy(remaining, deps, done).value, other, 0);
      }
    }
  }

  lemma NoMembers(s: seq<Str>)
    ensures s == [] <==> Members(s) == {}
  {
    if s != [] {
      assert s[0] in Members(s);
    }
  }

  /** Taking some other ready node first cannot block the rest. */
  lemma {:induction false} OthersFollow(remaining: seq<Str>, deps: Deps, done: set<Str>, other: seq<Str>, i: nat)
    requires Distinct(remaining) && Members(remaining) <= deps.Keys
    requires i < |remaining| && Ready(remaining[i], deps, done) && i == FirstReady(remaining, deps, done)
    requires Distinct(other) && Members(other) == Members(remaining)
    requires AfterPrerequisites(other, deps, done)
    ensures Greedy(remaining, deps, done).Some?
    decreases |remaining|, 0
  {
    var x := remaining[i];
    assert x in Members(other);
    var k :| 0 <= k < |other| && other[k] == x;
    WithoutMembers(remaining, i);
    WithoutMembers(other, k);
    RemovePrerequisite(other, k, deps, done);
    NotStuck(Without(remaining, i), deps, done + {x}, Without(other, k));
  }

  lemma RemovePrerequisite(other: seq<Str>, k: nat, deps: Deps, done: set<Str>)
    requires k < |other| && AfterPrerequisites(other, deps, done)
    ensures AfterPrerequisites(Without(other, k), deps, done + {other[k]})
  {
    forall m: nat ensures Served(Without(other, k), deps, done + {other[k]}, m) {
      if m < |Without(other, k)| {
        var at := if m < k then m else m + 1;
        assert Served(other, deps, done, at);
        assert Without(other, k)[m] == other[at];
        WithoutPrefix(other, k, m);
      }
    }
  }

  lemma WithoutPrefix(s: seq<Str>, k: nat, m: nat)
    requires k < |s| && m < |s| - 1
    ensures Members(s[..if m < k then m else m + 1]) <= Members(Without(s, k)[..m]) + {s[k]}
  {
    var prefix := Without(s, k)[..m];
    if m < k {
      assert prefix == s[..m];
    } else {
      assert prefix == s[..k] + s[k + 1..m + 1];
      assert s[..m + 1] == s[..k] + [s[k]] + s[k + 1..m + 1];
    }
  }

  lemma {:induction false} NotStuck(remaining: seq<Str>, deps: Deps, done: set<Str>, other: seq<Str>)
    requires Distinct(remaining) && Members(remaining) <= deps.Keys
    requires Distinct(other) && Members(other) == Members(remaining)
    requires AfterPrerequisites(other, deps, done)
    ensures Greedy(remaining, deps, done).Some?
    decreases |remaining|, 1
  {
    if remaining != [] {
      assert remaining[0] in Members(other);
      var y := other[0];
      assert y in Members(remaining);
      var j :| 0 <= j < |remaining| && remaining[j] == y;
      assert Served(other, deps, done, 0);
      assert Ready(remaining[j], deps, done);
      OthersFollow(remaining, deps, done, other, FirstReady(remaining, deps, done));
    }
  }

  lemma DropFirst(s: seq<Str>, deps: Deps, done: set<Str>)
    requires s != [] && Distinct(s) && AfterPrerequisites(s, deps, done)
    ensures Distinct(s[1..]) && Members(s[1..]) == Members(s) - {s[0]}
    ensures AfterPrerequisites(s[1..], deps, done + {s[0]})
  {
    WithoutMembers(s, 0);
    assert Without(s, 0) == s[1..];
    ShiftPrerequisites(s, deps, done);
  }

  lemma ShiftPrerequisites(s: seq<Str>, deps: Deps, done: set<Str>)
    requires s != [] && AfterPrerequisites(s, deps, done)
    ensures AfterPrerequisites(s[1..], deps, done + {s[0]})
  {
    forall i: nat ensures Served(s[1..], deps, done + {s[0]}, i) {
      if i + 1 < |s| {
        assert Served(s, deps, done, i + 1);
        assert s[..i + 1] == [s[0]] + s[1..][..i];
      }
    }
  }

  lemma ConsPrefix(x: Str, a: seq<Str>, k: nat)
    requires k < |a|
    ensures ([x] + a)[..k + 1] == [x] + a[..k] && ([x] + a)[k + 1] == a[k]
  {
  }

  lemma NoLaterCons(x: Str, a: seq<Str>, b: seq<Str>)
    requires NoLater(a, b)
    ensures NoLater([x] + a, [x] + b)
  {
    if a != b {
      var k: nat :| FirstDifference(a, b, k);
      ConsPrefix(x, a, k);
      ConsPrefix(x, b, k);
      assert FirstDifference([x] + a, [x] + b, k + 1);
    }
  }

  /* Success is the absence of cycles. */

  ghost function Position(order: seq<Str>, x: Str): nat
    requires x in order
    ensures Position(order, x) < |order| && order[Position(order, x)] == x
  {
    var i :| 0 <= i < |order| && order[i] == x;
    i
  }

  /** Walking along prerequisites moves towards the front of a topological order. */
  lemma {:induction false} WalkDescends(order: seq<Str>, deps: Deps, p: seq<Str>, k: nat)
    requires Topological(order, deps) && IsWalk(p, deps) && k < |p| && p[0] in order
    ensures p[k] in order && Position(order, p[k]) + k <= Position(order, p[0])
  {
    if k > 0 {
      WalkDescends(order, deps, p, k - 1);
      var i := Position(order, p[k - 1]);
      assert Served(order, deps, {}, i);
      assert order[i] == p[k - 1] && p[k] in deps[order[i]];
      assert p[k] in Members(order[..i]);
      var j :| 0 <= j < i && order[j] == p[k];
      assert p[k] in order && order[Position(order, p[k])] == order[j];
      assert Position(order, p[k]) == j;
    }
  }

  lemma TopologicalAcyclic(order: seq<Str>, deps: Deps)
    requires Topological(order, deps)
    ensures Acyclic(deps)
  {
    forall p | IsCycle(p, deps) ensures false {
      assert p[0] in deps && p[0] in Members(order);
      WalkDescends(order, deps, p, |p| - 1);
    }
  }

  /** Every node of `stuck` waits for another node of `stuck`. */
  ghost predicate Stuck(stuck: set<Str>, deps: Deps) {
    stuck != {} && forall x :: x in stuck ==> x in deps && deps[x] * stuck != {}
  }

  lemma {:induction false} FailureIsStuck(remaining: seq<Str>, deps: Deps, done: set<Str>) returns (stuck: set<Str>)
    requires Closed(deps) && Distinct(remaining) && Members(remaining) + done == deps.Keys
    requires Greedy(remaining, deps, done).None?
    ensures Stuck(stuck, deps)
    decreases |remaining|
  {
    var i := FirstReady(remaining, deps, done);
    if i == |remaining| {
      stuck := Members(remaining);
      assert remaining[0] in stuck;
      forall x | x in stuck ensures x in deps && deps[x] * stuck != {} {
        assert x in deps;
        var j :| 0 <= j < |remaining| && remaining[j] == x;
        assert !Ready(x, deps, done);
        var d :| d in deps[x] && d !in done;
        assert d in deps.Keys;
        assert d in deps[x] * stuck;
      }
    } else {
      WithoutMembers(remaining, i);
      assert remaining[i] in Members(remaining);
      stuck := FailureIsStuck(Without(remaining, i), deps, done + {remaining[i]});
    }
  }

  lemma {:induction false} LongWalk(stuck: set<Str>, deps: Deps, n: nat) returns (p: seq<Str>)
    requires Stuck(stuck, deps)
    ensures |p| == n + 1 && IsWalk(p, deps) && Members(p) <= stuck
  {
    if n == 0 {
      var x :| x in stuck;
      p := [x];
    } else {
      var q := LongWalk(stuck, deps, n - 1);
      var last := q[n - 1];
      assert last in Members(q);
      var d :| d in deps[last] * stuck;
      p := q + [d];
      forall i | 0 <= i < |p| - 1 ensures p[i] in deps && p[i + 1] in deps[p[i]] {
        assert i < n - 1 ==> p[i] == q[i] && p[i + 1] == q[i + 1];
      }
      forall x | x in p ensures x in stuck {
        assert x == d || x in Members(q);
      }
    }
  }

  lemma {:induction false} Pigeonhole(p: seq<Str>, holes: set<Str>) returns (i: nat, j: nat)
    requires Members(p) <= holes && |p| > |holes|
    ensures i < j < |p| && p[i] == p[j]
  {
    var last := p[|p| - 1];
    var init := p[..|p| - 1];
    assert last in Members(p);
    if last in init {
      i :| 0 <= i < |init| && init[i] == last;
      j := |p| - 1;
    } else {
      forall x | x in init ensures x in holes - {last} {
        assert x in Members(p);
      }
      i, j := Pigeonhole(init, holes - {last});
    }
  }

  lemma StuckCycle(stuck: set<Str>, deps: Deps)
    requires Stuck(stuck, deps)
    ensures !Acyclic(deps)
  {
    var p := LongWalk(stuck, deps, |stuck|);
    var i, j := Pigeonhole(p, stuck);
    var c := p[i..j + 1];
    assert forall k :: 0 <= k < |c| ==> c[k] == p[i + k];
    assert IsCycle(c, deps);
  }

  /** The loop succeeds exactly on acyclic graphs, with the least topological order. */
  lemma OrderCorrect(ids: seq<Str>, deps: Deps)
    requires Distinct(ids) && Sorted(ids, Compare) && Members(ids) == deps.Keys && Closed(deps)
    ensures Greedy(ids, deps, {}).Some? <==> Acyclic(deps)
    ensures
      var r := Greedy(ids, deps, {});
      r.Some? ==> Topological(r.value, deps) && IsLeast(r.value, deps)
  {
    var r := Greedy(ids, deps, {});
    if r.Some? {
      GreedyTopological(ids, deps, {});
      TopologicalAcyclic(r.value, deps);
      forall other | Topological(other, deps) ensures NoLater(r.value, other) {
        forall x | x in other ensures x in deps {
          assert x in Members(other);
        }
        GreedyLeast(ids, deps, {}, other);
      }
    } else {
      var stuck := FailureIsStuck(ids, deps, {});
      StuckCycle(stuck, deps);
    }
  }

  function Reverse<T>(s: seq<T>): (r: seq<T>)
    ensures |r| == |s|
  {
    if s == [] then [] else Reverse(s[1..]) + [s[0]]
  }

  lemma {:induction false} ReverseAt<T>(s: seq<T>, k: nat)
    requires k < |s|
    ensures Reverse(s)[k] == s[|s| - 1 - k]
  {
    if k < |s| - 1 {
      ReverseAt(s[1..], k);
    }
  }

  predicate WaitsFor(y: Str, x: Str, deps: Deps) {
    y in deps && x in deps[y]
  }

  /** Every node comes before its prerequisites. */
  ghost predicate BeforePrerequisites(s: seq<Str>, deps: Deps) {
    forall i, j :: 0 <= i < |s| && 0 <= j < |s| && WaitsFor(s[j], s[i], deps) ==> j < i
  }

  /** Every node comes after its prerequisites. */
  ghost predicate PrerequisitesFirst(s: seq<Str>, deps: Deps) {
    forall i, j :: 0 <= i < |s| && 0 <= j < |s| && WaitsFor(s[j], s[i], deps) ==> i < j
  }

  ghost predicate Mirrors(r: seq<Str>, s: seq<Str>) {
    |r| == |s| && forall k :: 0 <= k < |r| ==> r[k] == s[|s| - 1 - k]
  }

  /** Reversed, a topological order is an order of teardown. */
  lemma ReverseTearsDown(order: seq<Str>, deps: Deps)
    requires Topological(order, deps)
    ensures BeforePrerequisites(Reverse(order), deps)
  {
    TopologicalFirst(order, deps);
    ReverseMirrors(order);
    Flipped(order, Reverse(order), deps);
  }

  lemma ReverseMirrors(s: seq<Str>)
    ensures Mirrors(Reverse(s), s)
  {
    forall k: nat | k < |s| ensures Reverse(s)[k] == s[|s| - 1 - k] {
      ReverseAt(s, k);
    }
  }

  lemma Flipped(s: seq<Str>, r: seq<Str>, deps: Deps)
    requires PrerequisitesFirst(s, deps) && Mirrors(r, s)
    ensures BeforePrerequisites(r, deps)
  {
    forall i, j | 0 <= i < |r| && 0 <= j < |r| && WaitsFor(r[j], r[i], deps) ensures j < i {
      assert WaitsFor(s[|s| - 1 - j], s[|s| - 1 - i], deps);
    }
  }

  lemma TopologicalFirst(order: seq<Str>, deps: Deps)
    requires Topological(order, deps)
    ensures PrerequisitesFirst(order, deps)
  {
    forall a, b | 0 <= a < |order| && 0 <= b < |order| && WaitsFor(order[b], order[a], deps) ensures a < b {
      assert Served(order, deps, {}, b);
      assert order[a] in Members(order[..b]);
      var k :| 0 <= k < b && order[k] == order[a];
    }
  }
}
