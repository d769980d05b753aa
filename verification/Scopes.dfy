/** The scope tree: walking ancestry with a guard, and what a valid tree is. */
module Scopes {
  import opened Strings
  import opened Results
  import opened Composition
  import opened Wire

  datatype Code =
    | DuplicateScope
    | InvalidScopeTree
    | DuplicateNode
    | UnknownScope
    | InvalidPlacement
    | ServiceExecutable
    | GenerationConflict
    | InvalidOwner
    | DuplicatePort
    | PortBudget
    | InvalidEndpoint
    | DuplicateBinding
    | ContractMismatch
    | ScopeNotVisible
    | LocalPortCrossesSite
    | CardinalityMismatch
    | DependencyCycle

  type ScopeMap = map<Id, Scope>

  /** `new Map(xs.map((x) => [key(x), x]))`: a later element replaces an earlier one. */
  function IndexBy<T>(xs: seq<T>, key: T -> Id): map<Id, T> {
    if xs == [] then map[] else IndexBy(xs[..|xs| - 1], key)[key(xs[|xs| - 1]) := xs[|xs| - 1]]
  }

  ghost predicate UniqueBy<T, K>(xs: seq<T>, key: T -> K) {
    forall i, j :: 0 <= i < j < |xs| ==> key(xs[i]) != key(xs[j])
  }

  /** The map is keyed by `key` and holds the elements of `xs`. */
  ghost predicate Indexes<T>(m: map<Id, T>, xs: seq<T>, key: T -> Id) {
    && (forall x :: x in xs ==> key(x) in m && m[key(x)] == x)
    && (forall k :: k in m ==> m[k] in xs && key(m[k]) == k)
  }

  lemma {:induction false} IndexByKeys<T>(xs: seq<T>, key: T -> Id)
    ensures forall k :: k in IndexBy(xs, key) <==> exists i :: 0 <= i < |xs| && key(xs[i]) == k
    ensures |IndexBy(xs, key)| <= |xs|
  {
    if xs != [] {
      var init, last := xs[..|xs| - 1], xs[|xs| - 1];
      IndexByKeys(init, key);
      forall k ensures k in IndexBy(xs, key) <==> exists i :: 0 <= i < |xs| && key(xs[i]) == k {
        if k in IndexBy(init, key) {
          var i :| 0 <= i < |init| && key(init[i]) == k;
          assert key(xs[i]) == k;
        }
        if i :| 0 <= i < |xs| && key(xs[i]) == k && k != key(last) {
          assert key(init[i]) == k;
        }
        assert key(xs[|xs| - 1]) == key(last);
      }
    }
  }

  lemma UniqueSnoc<T>(init: seq<T>, last: T, key: T -> Id)
    ensures UniqueBy(init + [last], key)
      <==> UniqueBy(init, key) && forall i :: 0 <= i < |init| ==> key(init[i]) != key(last)
  {
    var xs := init + [last];
    assert forall i :: 0 <= i < |init| ==> xs[i] == init[i];
    assert xs[|init|] == last;
  }

  lemma {:induction false} IndexBySize<T>(xs: seq<T>, key: T -> Id)
    ensures |IndexBy(xs, key)| == |xs| <==> UniqueBy(xs, key)
  {
    if xs != [] {
      var init, last := xs[..|xs| - 1], xs[|xs| - 1];
      IndexBySize(init, key);
      IndexByKeys(init, key);
      assert xs == init + [last];
      UniqueSnoc(init, last, key);
    }
  }

  lemma {:induction false} IndexByIndexes<T>(xs: seq<T>, key: T -> Id)
    requires UniqueBy(xs, key)
    ensures Indexes(IndexBy(xs, key), xs, key)
  {
    if xs != [] {
      var init, last := xs[..|xs| - 1], xs[|xs| - 1];
      assert xs == init + [last];
      assert forall i :: 0 <= i < |init| ==> xs[i] == init[i];
      IndexByIndexes(init, key);
      forall x | x in init ensures key(x) != key(last) {
        var i :| 0 <= i < |init| && init[i] == x;
        assert key(xs[i]) != key(xs[|xs| - 1]);
      }
    }
  }

  /** The size of the map tells whether two elements share a key. */
  lemma IndexByCorrect<T>(xs: seq<T>, key: T -> Id)
    ensures |IndexBy(xs, key)| == |xs| <==> UniqueBy(xs, key)
    ensures UniqueBy(xs, key) ==> Indexes(IndexBy(xs, key), xs, key)
  {
    IndexBySize(xs, key);
    if UniqueBy(xs, key) {
      IndexByIndexes(xs, key);
    }
  }

  function ScopeId(s: Scope): Id {
    s.id
  }

  function Parent(l: Lifetime): Option<Id> {
    if l.Service? then None else Some(l.parent)
  }

  /* Walking up. */

  /** The loop of `ancestry`, from `next` on with `seen` behind it. */
  function Chain(next: Option<Id>, scopes: ScopeMap, seen: seq<Scope>): Result<seq<Scope>, Code>
    requires |seen| <= 32
    decreases 32 - |seen|, if next.None? then 0 else 1
  {
    if next.None? then Ok(seen)
    else if next.value !in scopes then Err(UnknownScope)
    else
      var scope := scopes[next.value];
      if scope in seen || |seen| >= 32 then Err(InvalidScopeTree)
      else Chain(Parent(scope.lifetime), scopes, seen + [scope])
  }

  method Ancestry(id: Id, scopes: ScopeMap) returns (r: Result<seq<Scope>, Code>)
    ensures r == Chain(Some(id), scopes, [])
  {
    var result: seq<Scope> := [];
    var next := Some(id);
    while next.Some?
      invariant |result| <= 32
      invariant Chain(next, scopes, result) == Chain(Some(id), scopes, [])
      decreases 32 - |result|, if next.None? then 0 else 1
    {
      if next.value !in scopes {
        return Err(UnknownScope);
      }
      var scope := scopes[next.value];
      if scope in result || |result| >= 32 {
        return Err(InvalidScopeTree);
      }
      result := result + [scope];
      next := Parent(scope.lifetime);
    }
    return Ok(result);
  }

  /* What a tree is. */

  function Rank(l: Lifetime): (r: nat)
    ensures r <= 4
  {
    match l
    case Service(_) => 0
    case Machine(_, _) => 1
    case Workspace(_, _) => 2
    case Session(_, _) => 3
    case Operation(_, _) => 4
  }

  predicate MayContain(outer: Lifetime, inner: Lifetime): (r: bool)
    ensures r <==>
      Rank(outer) < Rank(inner) && (inner.Operation? || Rank(inner) == Rank(outer) + 1)
  {
    match inner
    case Service(_) => false
    case Machine(_, _) => outer.Service?
    case Workspace(_, _) => outer.Machine?
    case Session(_, _) => outer.Workspace?
    case Operation(_, _) => !outer.Operation?
  }

  /** Every scope but a service sits in a scope that may contain it. */
  ghost predicate WellKinded(scopes: ScopeMap) {
    forall id :: id in scopes && !scopes[id].lifetime.Service? ==>
      && scopes[id].lifetime.parent in scopes
      && MayContain(scopes[scopes[id].lifetime.parent].lifetime, scopes[id].lifetime)
  }

  /** The scope `n` steps up. */
  ghost function Up(scopes: ScopeMap, id: Id, n: nat): Option<Id>
    decreases n
  {
    if id !in scopes then None
    else if n == 0 then Some(id)
    else
      var parent := Parent(scopes[id].lifetime);
      if parent.None? then None else Up(scopes, parent.value, n - 1)
  }

  /** `outer` is `inner` or one of the scopes around it. */
  ghost predicate Encloses(scopes: ScopeMap, outer: Id, inner: Id) {
    exists n: nat :: Up(scopes, inner, n) == Some(outer)
  }

  /** The scopes from `id` up to its service. */
  ghost function UpChain(scopes: ScopeMap, id: Id): (chain: seq<Scope>)
    requires WellKinded(scopes) && id in scopes
    ensures chain != [] && chain[0] == scopes[id]
    ensures |chain| <= Rank(scopes[id].lifetime) + 1
    decreases Rank(scopes[id].lifetime)
  {
    if scopes[id].lifetime.Service? then [scopes[id]]
    else [scopes[id]] + UpChain(scopes, scopes[id].lifetime.parent)
  }

  /** Kinds strictly rise on the way up, so the guards never stop a well-kinded walk. */
  lemma {:induction false} ChainWellKinded(scopes: ScopeMap, id: Id, seen: seq<Scope>)
    requires WellKinded(scopes) && id in scopes
    requires forall s :: s in seen ==> Rank(s.lifetime) > Rank(scopes[id].lifetime)
    requires |seen| + Rank(scopes[id].lifetime) <= 4
    ensures Chain(Some(id), scopes, seen) == Ok(seen + UpChain(scopes, id))
    decreases Rank(scopes[id].lifetime)
  {
    var scope := scopes[id];
    if scope.lifetime.Service? {
      assert Chain(None, scopes, seen + [scope]) == Ok(seen + [scope]);
    } else {
      var parent := scope.lifetime.parent;
      ChainWellKinded(scopes, parent, seen + [scope]);
      assert (seen + [scope]) + UpChain(scopes, parent) == seen + ([scope] + UpChain(scopes, parent));
    }
  }

  /** The walk up visits exactly the enclosing scopes. */
  lemma {:induction false} UpChainEncloses(scopes: ScopeMap, id: Id, i: nat)
    requires WellKinded(scopes) && id in scopes
    requires forall k :: k in scopes ==> scopes[k].id == k
    ensures i < |UpChain(scopes, id)| ==> Up(scopes, id, i) == Some(UpChain(scopes, id)[i].id)
    ensures i >= |UpChain(scopes, id)| ==> Up(scopes, id, i) == None
    decreases i
  {
    if i > 0 && !scopes[id].lifetime.Service? {
      UpChainEncloses(scopes, scopes[id].lifetime.parent, i - 1);
    }
  }

  predicate Visits(chain: seq<Scope>, id: Id) {
    exists i :: 0 <= i < |chain| && chain[i].id == id
  }

  lemma ChainEncloses(scopes: ScopeMap, id: Id)
    requires WellKinded(scopes) && id in scopes
    requires forall k :: k in scopes ==> scopes[k].id == k
    ensures Chain(Some(id), scopes, []).Ok?
    ensures forall outer :: Encloses(scopes, outer, id) <==> Visits(Chain(Some(id), scopes, []).value, outer)
    ensures forall s :: s in Chain(Some(id), scopes, []).value ==> s.id in scopes && scopes[s.id] == s
  {
    ChainWellKinded(scopes, id, []);
    var chain := UpChain(scopes, id);
    assert [] + chain == chain;
    forall outer
      ensures Encloses(scopes, outer, id) <==> Visits(chain, outer)
    {
      if Encloses(scopes, outer, id) {
        var n: nat :| Up(scopes, id, n) == Some(outer);
        UpChainEncloses(scopes, id, n);
        assert chain[n].id == outer;
      }
      if Visits(chain, outer) {
        var i :| 0 <= i < |chain| && chain[i].id == outer;
        UpChainEncloses(scopes, id, i);
      }
    }
    UpChainMembers(scopes, id);
  }

  lemma {:induction false} UpChainMembers(scopes: ScopeMap, id: Id)
    requires WellKinded(scopes) && id in scopes
    requires forall k :: k in scopes ==> scopes[k].id == k
    ensures forall s :: s in UpChain(scopes, id) ==> s.id in scopes && scopes[s.id] == s
    decreases Rank(scopes[id].lifetime)
  {
    if !scopes[id].lifetime.Service? {
      UpChainMembers(scopes, scopes[id].lifetime.parent);
    }
  }

  /* Validating all scopes. */

  ghost predicate LifetimeAmong(ss: seq<Scope>, l: Lifetime) {
    exists j :: 0 <= j < |ss| && ss[j].lifetime == l
  }

  ghost function ServiceAmong(ss: seq<Scope>): Option<Id> {
    if ss == [] then None
    else
      var last := ss[|ss| - 1].lifetime;
      if last.Service? then Some(last.serviceId) else ServiceAmong(ss[..|ss| - 1])
  }

  /** The complaint about the `i`-th scope, given the ones before it. */
  ghost function ScopeError(ss: seq<Scope>, scopes: ScopeMap, i: nat): Option<Code>
    requires i < |ss|
  {
    var lifetime := ss[i].lifetime;
    if LifetimeAmong(ss[..i], lifetime) then Some(DuplicateScope)
    else
      match Chain(Some(ss[i].id), scopes, [])
      case Err(code) => Some(code)
      case Ok(chain) =>
        if lifetime.Service? then if ServiceAmong(ss[..i]).Some? then Some(InvalidScopeTree) else None
        else if |chain| > 1 && MayContain(chain[1].lifetime, lifetime) then None
        else Some(InvalidScopeTree)
  }

  /** The first complaint from the `i`-th scope on. */
  ghost function ScopesError(ss: seq<Scope>, scopes: ScopeMap, i: nat): Option<Code>
    decreases |ss| - i
  {
    if i >= |ss| then None
    else if ScopeError(ss, scopes, i).Some? then ScopeError(ss, scopes, i)
    else ScopesError(ss, scopes, i + 1)
  }

  /** The service the scopes belong to, or the first complaint. */
  ghost function ScopesOutcome(ss: seq<Scope>, scopes: ScopeMap): Result<Id, Code> {
    if ScopesError(ss, scopes, 0).Some? then Err(ScopesError(ss, scopes, 0).value)
    else if ServiceAmong(ss).None? then Err(InvalidScopeTree)
    else Ok(ServiceAmong(ss).value)
  }

  ghost function IdentitiesOf(ss: seq<Scope>): set<Str> {
    set j | 0 <= j < |ss| :: LifetimeKey(ss[j].lifetime)
  }

  lemma LifetimeKeysAmong(ss: seq<Scope>, keys: set<Str>, l: Lifetime)
    requires keys == IdentitiesOf(ss)
    ensures LifetimeKey(l) in keys <==> LifetimeAmong(ss, l)
  {
    if LifetimeKey(l) in keys {
      var j :| 0 <= j < |ss| && LifetimeKey(ss[j].lifetime) == LifetimeKey(l);
      LifetimeKeys(ss[j].lifetime, l);
    }
    if LifetimeAmong(ss, l) {
      var j :| 0 <= j < |ss| && ss[j].lifetime == l;
      assert LifetimeKey(ss[j].lifetime) in keys;
    }
  }

  method ValidateScopes(ss: seq<Scope>, scopes: ScopeMap) returns (r: Result<Id, Code>)
    ensures r == ScopesOutcome(ss, scopes)
  {
    var lifetimes: set<Str> := {};
    var service: Option<Id> := None;
    for i := 0 to |ss|
      invariant lifetimes == IdentitiesOf(ss[..i])
      invariant service == ServiceAmong(ss[..i])
      invariant ScopesError(ss, scopes, i) == ScopesError(ss, scopes, 0)
    {
      var scope := ss[i];
      var identity := LifetimeKey(scope.lifetime);
      LifetimeKeysAmong(ss[..i], lifetimes, scope.lifetime);
      if identity in lifetimes {
        return Err(DuplicateScope);
      }
      lifetimes := AddLifetime(ss, i, lifetimes);
      var chain := Ancestry(scope.id, scopes);
      if chain.Err? {
        return Err(chain.error);
      }
      assert ss[..i + 1] == ss[..i] + [scope];
      if scope.lifetime.Service? {
        if service.Some? {
          return Err(InvalidScopeTree);
        }
        service := Some(scope.lifetime.serviceId);
      } else if !(|chain.value| > 1 && MayContain(chain.value[1].lifetime, scope.lifetime)) {
        return Err(InvalidScopeTree);
      }
    }
    assert ss[..|ss|] == ss;
    return if service.None? then Err(InvalidScopeTree) else Ok(service.value);
  }

  method AddLifetime(ss: seq<Scope>, i: nat, lifetimes: set<Str>) returns (r: set<Str>)
    requires i < |ss|
    requires lifetimes == IdentitiesOf(ss[..i])
    ensures r == lifetimes + {LifetimeKey(ss[i].lifetime)}
    ensures r == IdentitiesOf(ss[..i + 1])
  {
    r := lifetimes + {LifetimeKey(ss[i].lifetime)};
    var before, after := ss[..i], ss[..i + 1];
    assert after == before + [ss[i]];
    forall k | k in r ensures k in IdentitiesOf(after) {
      if k in lifetimes {
        var j :| 0 <= j < |before| && LifetimeKey(before[j].lifetime) == k;
        assert after[j] == before[j];
      } else {
        assert after[i] == ss[i];
      }
    }
    forall j | 0 <= j < |after| ensures LifetimeKey(after[j].lifetime) in r {
      if j < i {
        assert after[j] == before[j];
      }
    }
  }

  /* Accepted scopes are exactly the trees. */

  /** A tree under one service: no lifetime twice, every other scope where its kind allows. */
  ghost predicate ScopeTree(ss: seq<Scope>) {
    && (forall s, t :: s in ss && t in ss && s.lifetime == t.lifetime ==> s == t)
    && (exists s :: s in ss && s.lifetime.Service?)
    && (forall s, t :: s in ss && t in ss && s.lifetime.Service? && t.lifetime.Service? ==> s == t)
    && (forall s :: s in ss ==> Placed(ss, s))
  }

  ghost predicate Placed(ss: seq<Scope>, s: Scope) {
    s.lifetime.Service? || exists p :: p in ss && p.id == s.lifetime.parent && MayContain(p.lifetime, s.lifetime)
  }

  lemma PlacedWellKinded(ss: seq<Scope>, scopes: ScopeMap)
    requires Indexes(scopes, ss, ScopeId)
    ensures (forall s :: s in ss ==> Placed(ss, s)) <==> WellKinded(scopes)
    ensures forall k :: k in scopes ==> scopes[k].id == k
  {
    if forall s :: s in ss ==> Placed(ss, s) {
      forall id | id in scopes && !scopes[id].lifetime.Service?
        ensures scopes[id].lifetime.parent in scopes
        ensures MayContain(scopes[scopes[id].lifetime.parent].lifetime, scopes[id].lifetime)
      {
        assert scopes[id] in ss && Placed(ss, scopes[id]);
        var p :| p in ss && p.id == scopes[id].lifetime.parent && MayContain(p.lifetime, scopes[id].lifetime);
        assert ScopeId(p) in scopes && scopes[ScopeId(p)] == p;
      }
    }
    if WellKinded(scopes) {
      forall s | s in ss ensures Placed(ss, s) {
        assert ScopeId(s) in scopes && scopes[s.id] == s;
        if !s.lifetime.Service? {
          var p := scopes[s.lifetime.parent];
          assert p in ss && ScopeId(p) == s.lifetime.parent;
        }
      }
    }
  }

  lemma {:induction false} ScopesErrorNone(ss: seq<Scope>, scopes: ScopeMap, i: nat)
    ensures ScopesError(ss, scopes, i).None? <==> forall k :: i <= k < |ss| ==> ScopeError(ss, scopes, k).None?
    decreases |ss| - i
  {
    if i < |ss| && ScopeError(ss, scopes, i).None? {
      ScopesErrorNone(ss, scopes, i + 1);
    }
  }

  lemma {:induction false} ServiceAmongIs(ss: seq<Scope>)
    ensures ServiceAmong(ss).Some? <==> exists s :: s in ss && s.lifetime.Service?
    ensures ServiceAmong(ss).Some? ==> exists s :: s in ss && s.lifetime == Service(ServiceAmong(ss).value)
  {
    if ss != [] {
      var init, last := ss[..|ss| - 1], ss[|ss| - 1];
      ServiceAmongIs(init);
      assert ss == init + [last];
    }
  }

  /** A walk keeps what is behind it, and its next scope is the one it was sent to. */
  lemma {:induction false} ChainPrefix(next: Option<Id>, scopes: ScopeMap, seen: seq<Scope>)
    requires |seen| <= 32 && Chain(next, scopes, seen).Ok?
    ensures seen <= Chain(next, scopes, seen).value
    ensures next.Some? ==>
      && next.value in scopes
      && |Chain(next, scopes, seen).value| > |seen|
      && Chain(next, scopes, seen).value[|seen|] == scopes[next.value]
    decreases 32 - |seen|, if next.None? then 0 else 1
  {
    if next.Some? {
      var scope := scopes[next.value];
      ChainPrefix(Parent(scope.lifetime), scopes, seen + [scope]);
      assert (seen + [scope])[|seen|] == scope;
    }
  }

  /** For a walk that ends, the second scope met is the parent. */
  lemma ChainParent(id: Id, scopes: ScopeMap)
    requires id in scopes && !scopes[id].lifetime.Service? && Chain(Some(id), scopes, []).Ok?
    ensures
      var chain := Chain(Some(id), scopes, []).value;
      |chain| > 1 && scopes[id].lifetime.parent in scopes && chain[1] == scopes[scopes[id].lifetime.parent]
  {
    assert [] + [scopes[id]] == [scopes[id]];
    assert Chain(Some(id), scopes, []) == Chain(Parent(scopes[id].lifetime), scopes, [scopes[id]]);
    ChainPrefix(Parent(scopes[id].lifetime), scopes, [scopes[id]]);
  }

  lemma ScopesAccepted(ss: seq<Scope>, scopes: ScopeMap)
    requires UniqueBy(ss, ScopeId) && Indexes(scopes, ss, ScopeId) && ScopeTree(ss)
    ensures ScopesOutcome(ss, scopes).Ok?
  {
    PlacedWellKinded(ss, scopes);
    forall k | 0 <= k < |ss| ensures ScopeError(ss, scopes, k).None? {
      var s := ss[k];
      assert s in ss && ScopeId(s) in scopes && scopes[s.id] == s;
      forall j | 0 <= j < |ss[..k]| ensures ss[..k][j] in ss && ss[..k][j] != s {
        assert ss[..k][j] == ss[j] && ScopeId(ss[j]) != ScopeId(ss[k]);
      }
      ChainEncloses(scopes, s.id);
      if s.lifetime.Service? {
        ServiceAmongIs(ss[..k]);
      } else {
        ChainParent(s.id, scopes);
      }
    }
    ScopesErrorNone(ss, scopes, 0);
    ServiceAmongIs(ss);
  }

  lemma ScopesValid(ss: seq<Scope>, scopes: ScopeMap)
    requires UniqueBy(ss, ScopeId) && Indexes(scopes, ss, ScopeId) && ScopesOutcome(ss, scopes).Ok?
    ensures ScopeTree(ss)
    ensures exists s :: s in ss && s.lifetime == Service(ScopesOutcome(ss, scopes).value)
  {
    ScopesErrorNone(ss, scopes, 0);
    ServiceAmongIs(ss);
    forall i, j | 0 <= i < j < |ss|
      ensures ss[i].lifetime != ss[j].lifetime
      ensures !(ss[i].lifetime.Service? && ss[j].lifetime.Service?)
    {
      assert ScopeError(ss, scopes, j).None?;
      assert ss[..j][i] == ss[i];
      ServiceAmongIs(ss[..j]);
      assert ss[i] in ss[..j];
    }
    forall id | id in scopes && !scopes[id].lifetime.Service?
      ensures scopes[id].lifetime.parent in scopes
      ensures MayContain(scopes[scopes[id].lifetime.parent].lifetime, scopes[id].lifetime)
    {
      var k :| 0 <= k < |ss| && ss[k] == scopes[id];
      assert ScopeError(ss, scopes, k).None? && ScopeId(ss[k]) == id;
      ChainParent(id, scopes);
    }
    PlacedWellKinded(ss, scopes);
  }

  /** The two loops decide the tree, whatever order the scopes come in. */
  lemma ScopesOutcomeIff(ss: seq<Scope>)
    requires UniqueBy(ss, ScopeId)
    ensures
      var outcome := ScopesOutcome(ss, IndexBy(ss, ScopeId));
      && (outcome.Ok? <==> ScopeTree(ss))
      && (outcome.Ok? ==> exists s :: s in ss && s.lifetime == Service(outcome.value))
  {
    var scopes := IndexBy(ss, ScopeId);
    IndexByCorrect(ss, ScopeId);
    if ScopesOutcome(ss, scopes).Ok? {
      ScopesValid(ss, scopes);
    }
    if ScopeTree(ss) {
      ScopesAccepted(ss, scopes);
    }
  }
}
