/**
 * Lifetimes nest: whatever a node waits for lives in a scope around it, so a scope
 * can be torn down with everything inside it and what is left still links.
 */
module Teardown {
  import opened Strings
  import opened Orders
  import opened Results
  import opened Composition
  import opened Graph
  import opened Scopes
  import opened Proposal
  import opened LinkSpec
  import opened Linker
  import opened Linking
  import opened Reordering

  /* Filtering a list. */

  ghost function Filter<T>(s: seq<T>, keep: T -> bool): seq<T> {
    if s == [] then [] else (if keep(s[0]) then [s[0]] else []) + Filter(s[1..], keep)
  }

  lemma {:induction false} FilterIn<T>(s: seq<T>, keep: T -> bool, x: T)
    ensures x in Filter(s, keep) <==> x in s && keep(x)
  {
    if s != [] {
      FilterIn(s[1..], keep, x);
      assert s == [s[0]] + s[1..];
    }
  }

  lemma {:induction false} FilterAppend<T>(a: seq<T>, b: seq<T>, keep: T -> bool)
    ensures Filter(a + b, keep) == Filter(a, keep) + Filter(b, keep)
  {
    if a == [] {
      assert a + b == b;
    } else {
      assert (a + b)[1..] == a[1..] + b;
      FilterAppend(a[1..], b, keep);
      Regroup(if keep(a[0]) then [a[0]] else [], Filter(a[1..], keep), Filter(b, keep));
    }
  }

  lemma Regroup<T>(x: seq<T>, y: seq<T>, z: seq<T>)
    ensures x + (y + z) == (x + y) + z
  {
  }

  lemma UniqueCons<T, K>(x: T, s: seq<T>, key: T -> K)
    ensures UniqueBy([x] + s, key) <==> UniqueBy(s, key) && forall y :: y in s ==> key(y) != key(x)
  {
    var t := [x] + s;
    assert forall i :: 0 <= i < |s| ==> t[i + 1] == s[i];
    if UniqueBy(t, key) {
      forall i, j | 0 <= i < j < |s| ensures key(s[i]) != key(s[j]) {
        assert key(t[i + 1]) != key(t[j + 1]);
      }
      forall y | y in s ensures key(y) != key(x) {
        var i :| 0 <= i < |s| && s[i] == y;
        assert key(t[0]) != key(t[i + 1]);
      }
    }
    if UniqueBy(s, key) && forall y :: y in s ==> key(y) != key(x) {
      forall i, j | 0 <= i < j < |t| ensures key(t[i]) != key(t[j]) {
        assert t[j] == s[j - 1];
        if i > 0 {
          assert key(s[i - 1]) != key(s[j - 1]);
        }
      }
    }
  }

  lemma {:induction false} FilterUnique<T, K>(s: seq<T>, keep: T -> bool, key: T -> K)
    requires UniqueBy(s, key)
    ensures UniqueBy(Filter(s, keep), key)
  {
    if s != [] {
      assert s == [s[0]] + s[1..];
      UniqueCons(s[0], s[1..], key);
      FilterUnique(s[1..], keep, key);
      forall y | y in Filter(s[1..], keep) ensures key(y) != key(s[0]) {
        FilterIn(s[1..], keep, y);
      }
      UniqueCons(s[0], Filter(s[1..], keep), key);
      assert keep(s[0]) || Filter(s, keep) == Filter(s[1..], keep);
    }
  }

  /* What a teardown leaves. */

  ghost predicate KeepScope(c: Composition, root: Id, id: Id) {
    !Within(c, id, root)
  }

  ghost predicate KeepNode(c: Composition, root: Id, id: Id) {
    exists n :: n in c.nodes && n.id == id && KeepScope(c, root, n.scope)
  }

  /** The composition without scope `root` and everything inside it. */
  ghost function TornDown(c: Composition, root: Id): Composition {
    Composition(
      Filter(c.scopes, (s: Scope) => KeepScope(c, root, s.id)),
      Filter(c.nodes, (n: Node) => KeepScope(c, root, n.scope)),
      Filter(c.bindings, (b: Binding) => KeepNode(c, root, b.consumer.node)))
  }

  lemma Kept(c: Composition, root: Id)
    ensures
      var t := TornDown(c, root);
      && (forall s :: s in t.scopes <==> s in c.scopes && KeepScope(c, root, s.id))
      && (forall n :: n in t.nodes <==> n in c.nodes && KeepScope(c, root, n.scope))
      && (forall b :: b in t.bindings <==> b in c.bindings && KeepNode(c, root, b.consumer.node))
  {
    var t := TornDown(c, root);
    forall s ensures s in t.scopes <==> s in c.scopes && KeepScope(c, root, s.id) {
      FilterIn(c.scopes, (s: Scope) => KeepScope(c, root, s.id), s);
    }
    forall n ensures n in t.nodes <==> n in c.nodes && KeepScope(c, root, n.scope) {
      FilterIn(c.nodes, (n: Node) => KeepScope(c, root, n.scope), n);
    }
    forall b ensures b in t.bindings <==> b in c.bindings && KeepNode(c, root, b.consumer.node) {
      FilterIn(c.bindings, (b: Binding) => KeepNode(c, root, b.consumer.node), b);
    }
  }

  /* Walking up adds. */

  lemma {:induction false} UpAdds(scopes: ScopeMap, id: Id, m: nat, n: nat)
    requires Up(scopes, id, m).Some?
    ensures Up(scopes, id, m + n) == Up(scopes, Up(scopes, id, m).value, n)
    decreases m
  {
    if m > 0 {
      UpAdds(scopes, Parent(scopes[id].lifetime).value, m - 1, n);
    }
  }

  lemma WithinTransitive(c: Composition, a: Id, b: Id, d: Id)
    requires Within(c, a, b) && Within(c, b, d)
    ensures Within(c, a, d)
  {
    var scopes := IndexBy(c.scopes, ScopeId);
    var m: nat :| Up(scopes, a, m) == Some(b);
    var n: nat :| Up(scopes, b, n) == Some(d);
    UpAdds(scopes, a, m, n);
    assert Up(scopes, a, m + n) == Some(d);
  }

  /** What encloses something kept is kept. */
  lemma KeptAbove(c: Composition, root: Id, inner: Id, outer: Id)
    requires KeepScope(c, root, inner) && Within(c, inner, outer)
    ensures KeepScope(c, root, outer)
  {
    if Within(c, outer, root) {
      WithinTransitive(c, inner, outer, root);
    }
  }

  /** A composition whose scopes are a tree, torn down below its service. */
  ghost predicate Removable(c: Composition, root: Id) {
    && UniqueBy(c.scopes, ScopeId) && ScopeTree(c.scopes)
    && forall s :: s in c.scopes && s.id == root ==> !s.lifetime.Service?
  }

  lemma ScopesIndexed(c: Composition)
    requires UniqueBy(c.scopes, ScopeId) && ScopeTree(c.scopes)
    ensures
      var scopes := IndexBy(c.scopes, ScopeId);
      Indexes(scopes, c.scopes, ScopeId) && WellKinded(scopes) && forall k :: k in scopes ==> scopes[k].id == k
  {
    IndexByIndexes(c.scopes, ScopeId);
    PlacedWellKinded(c.scopes, IndexBy(c.scopes, ScopeId));
  }

  lemma TornScopesUnique(c: Composition, root: Id)
    requires UniqueBy(c.scopes, ScopeId)
    ensures UniqueBy(TornDown(c, root).scopes, ScopeId)
  {
    FilterUnique(c.scopes, (s: Scope) => KeepScope(c, root, s.id), ScopeId);
  }

  lemma ServiceKept(c: Composition, root: Id, s: Scope)
    requires Removable(c, root) && s in c.scopes && s.lifetime.Service?
    ensures KeepScope(c, root, s.id)
  {
    ScopesIndexed(c);
    var scopes := IndexBy(c.scopes, ScopeId);
    assert ScopeId(s) in scopes && scopes[s.id] == s;
    assert s.id != root;
    forall n: nat ensures Up(scopes, s.id, n) != Some(root) {
      assert n == 0 || Up(scopes, s.id, n) == None;
    }
  }

  lemma ParentKept(c: Composition, root: Id, s: Scope, p: Scope)
    requires Removable(c, root) && s in c.scopes && p in c.scopes
    requires !s.lifetime.Service? && p.id == s.lifetime.parent && KeepScope(c, root, s.id)
    ensures KeepScope(c, root, p.id)
  {
    ScopesIndexed(c);
    var scopes := IndexBy(c.scopes, ScopeId);
    assert ScopeId(s) in scopes && scopes[s.id] == s && ScopeId(p) in scopes && scopes[p.id] == p;
    assert Up(scopes, p.id, 0) == Some(p.id);
    assert Up(scopes, s.id, 1) == Some(p.id);
    KeptAbove(c, root, s.id, p.id);
  }

  lemma TornScopesTree(c: Composition, root: Id)
    requires Removable(c, root)
    ensures ScopeTree(TornDown(c, root).scopes)
  {
    var t := TornDown(c, root);
    Kept(c, root);
    var service :| service in c.scopes && service.lifetime.Service?;
    ServiceKept(c, root, service);
    assert service in t.scopes;
    forall s | s in t.scopes ensures Placed(t.scopes, s) {
      assert Placed(c.scopes, s);
      if !s.lifetime.Service? {
        var p :| p in c.scopes && p.id == s.lifetime.parent && MayContain(p.lifetime, s.lifetime);
        ParentKept(c, root, s, p);
        assert p in t.scopes;
      }
    }
  }

  /** Both maps have the same entry at `id`, and its parent is kept with it. */
  predicate SameStep(scopes: ScopeMap, torn: ScopeMap, keep: Id -> bool, id: Id) {
    && (id in scopes <==> id in torn)
    && (id in scopes ==>
          torn[id] == scopes[id]
          && (Parent(scopes[id].lifetime).Some? ==> keep(Parent(scopes[id].lifetime).value)))
  }

  lemma {:induction false} UpSame(scopes: ScopeMap, torn: ScopeMap, keep: Id -> bool, id: Id, n: nat)
    requires keep(id) && forall k :: keep(k) ==> SameStep(scopes, torn, keep, k)
    ensures Up(torn, id, n) == Up(scopes, id, n)
    decreases n
  {
    assert SameStep(scopes, torn, keep, id);
    if n > 0 && id in scopes && Parent(scopes[id].lifetime).Some? {
      UpSame(scopes, torn, keep, Parent(scopes[id].lifetime).value, n - 1);
    }
  }

  lemma UpKept(c: Composition, root: Id, id: Id, n: nat)
    requires Removable(c, root) && KeepScope(c, root, id)
    ensures Up(IndexBy(TornDown(c, root).scopes, ScopeId), id, n) == Up(IndexBy(c.scopes, ScopeId), id, n)
  {
    var scopes, torn := IndexBy(c.scopes, ScopeId), IndexBy(TornDown(c, root).scopes, ScopeId);
    var keep := (k: Id) => KeepScope(c, root, k);
    forall k | keep(k) ensures SameStep(scopes, torn, keep, k) {
      SameEntry(c, root, k);
      ParentOf(c, root, k);
    }
    UpSame(scopes, torn, keep, id, n);
  }

  lemma ParentOf(c: Composition, root: Id, id: Id)
    requires Removable(c, root) && KeepScope(c, root, id)
    ensures
      var scopes := IndexBy(c.scopes, ScopeId);
      id in scopes && !scopes[id].lifetime.Service? ==> KeepScope(c, root, scopes[id].lifetime.parent)
  {
    ScopesIndexed(c);
    var scopes := IndexBy(c.scopes, ScopeId);
    if id in scopes && !scopes[id].lifetime.Service? {
      var p := scopes[scopes[id].lifetime.parent];
      assert scopes[id] in c.scopes && p in c.scopes;
      ParentKept(c, root, scopes[id], p);
    }
  }

  lemma SameEntry(c: Composition, root: Id, id: Id)
    requires Removable(c, root) && KeepScope(c, root, id)
    ensures
      var scopes, torn := IndexBy(c.scopes, ScopeId), IndexBy(TornDown(c, root).scopes, ScopeId);
      (id in scopes <==> id in torn) && (id in scopes ==> torn[id] == scopes[id])
  {
    var t := TornDown(c, root);
    Kept(c, root);
    ScopesIndexed(c);
    TornScopesUnique(c, root);
    IndexByIndexes(t.scopes, ScopeId);
    var scopes, torn := IndexBy(c.scopes, ScopeId), IndexBy(t.scopes, ScopeId);
    if id in scopes {
      assert scopes[id] in t.scopes;
      assert ScopeId(scopes[id]) in torn;
    }
    if id in torn {
      assert torn[id] in c.scopes && ScopeId(torn[id]) in scopes;
    }
  }

  lemma WithinKept(c: Composition, root: Id, inner: Id, outer: Id)
    requires Removable(c, root) && KeepScope(c, root, inner)
    ensures Within(TornDown(c, root), inner, outer) <==> Within(c, inner, outer)
  {
    var scopes, torn := IndexBy(c.scopes, ScopeId), IndexBy(TornDown(c, root).scopes, ScopeId);
    forall n: nat ensures Up(torn, inner, n) == Up(scopes, inner, n) {
      UpKept(c, root, inner, n);
    }
    if Within(c, inner, outer) {
      var n: nat :| Up(scopes, inner, n) == Some(outer);
      assert Up(torn, inner, n) == Some(outer);
    }
    if Within(TornDown(c, root), inner, outer) {
      var n: nat :| Up(torn, inner, n) == Some(outer);
      assert Up(scopes, inner, n) == Some(outer);
    }
  }

  /* Nodes and bindings that stay still fit. */

  lemma NodeStillFits(c: Composition, root: Id, n: Node)
    requires Removable(c, root) && n in c.nodes && NodeFits(c, n) && KeepScope(c, root, n.scope)
    ensures NodeFits(TornDown(c, root), n)
  {
    var t := TornDown(c, root);
    Kept(c, root);
    var s :| s in c.scopes && s.id == n.scope;
    assert s in t.scopes;
    var service :| service in c.scopes && service.lifetime == Service(n.site.serviceId);
    ServiceKept(c, root, service);
    assert service in t.scopes;
    forall m | m in t.scopes && m.lifetime.Machine? && Within(t, n.scope, m.id)
      ensures n.site.MachineSite? && n.site.machineId == m.lifetime.machineId
    {
      WithinKept(c, root, n.scope, m.id);
    }
    if n.owner.NodeOwner? {
      var m :| m in c.nodes && m.id == n.owner.node && Owns(c, m, n);
      KeptAbove(c, root, n.scope, m.scope);
      WithinKept(c, root, n.scope, m.scope);
      assert m in t.nodes && Owns(t, m, n);
    }
  }

  lemma {:induction false} FilterTotal(ns: seq<Node>, keep: Node -> bool)
    ensures PortTotal(Filter(ns, keep)) <= PortTotal(ns)
  {
    if ns != [] {
      FilterTotal(ns[1..], keep);
      assert ns == [ns[0]] + ns[1..];
      TotalCons(ns[0], ns[1..]);
      TotalCons(ns[0], Filter(ns[1..], keep));
      assert keep(ns[0]) || Filter(ns, keep) == Filter(ns[1..], keep);
    }
  }

  lemma {:induction false} TotalCons(n: Node, ns: seq<Node>)
    ensures PortTotal([n] + ns) == |n.provided| + |n.required| + PortTotal(ns)
  {
    if ns == [] {
      assert ([n] + ns)[..0] == [];
    } else {
      TotalCons(n, ns[..|ns| - 1]);
      assert ([n] + ns)[..|ns|] == [n] + ns[..|ns| - 1];
    }
  }

  lemma NodesStillFit(c: Composition, root: Id)
    requires Removable(c, root) && NodesFit(c)
    ensures NodesFit(TornDown(c, root))
  {
    Kept(c, root);
    forall n | n in TornDown(c, root).nodes ensures NodeFits(TornDown(c, root), n) {
      NodeStillFits(c, root, n);
    }
    FilterTotal(c.nodes, (n: Node) => KeepScope(c, root, n.scope));
  }

  lemma SameNode(c: Composition, m: Node, n: Node)
    requires UniqueBy(c.nodes, NodeId) && m in c.nodes && n in c.nodes && m.id == n.id
    ensures m == n
  {
    PortFound(c.nodes, NodeId, m, n);
  }

  lemma KeepNodeIs(c: Composition, root: Id, n: Node)
    requires UniqueBy(c.nodes, NodeId) && n in c.nodes
    ensures KeepNode(c, root, n.id) <==> KeepScope(c, root, n.scope)
  {
    forall m | m in c.nodes && m.id == n.id ensures m == n {
      SameNode(c, m, n);
    }
  }

  lemma BindingStillFits(c: Composition, root: Id, b: Binding)
    requires Removable(c, root) && UniqueBy(c.nodes, NodeId)
    requires BindingFits(c, b) && KeepNode(c, root, b.consumer.node)
    ensures BindingFits(TornDown(c, root), b)
    ensures exists provider :: provider in TornDown(c, root).nodes && provider.id == b.provider.node
  {
    var t := TornDown(c, root);
    Kept(c, root);
    var consumer, provider, required, provided :|
      && consumer in c.nodes && consumer.id == b.consumer.node
      && provider in c.nodes && provider.id == b.provider.node
      && required in consumer.required && required.id == b.consumer.port
      && provided in provider.provided && provided.id == b.provider.port
      && Links(c, consumer, provider, required, provided);
    KeepNodeIs(c, root, consumer);
    WithinKept(c, root, consumer.scope, provider.scope);
    if consumer.scope != provider.scope {
      KeptAbove(c, root, consumer.scope, provider.scope);
    }
    assert consumer in t.nodes && provider in t.nodes && Links(t, consumer, provider, required, provided);
  }

  lemma BindingsStillFit(c: Composition, root: Id)
    requires Removable(c, root) && UniqueBy(c.nodes, NodeId) && BindingsFit(c)
    ensures BindingsFit(TornDown(c, root))
  {
    Kept(c, root);
    FilterUnique(c.bindings, (b: Binding) => KeepNode(c, root, b.consumer.node), EdgeOf);
    forall b | b in TornDown(c, root).bindings ensures BindingFits(TornDown(c, root), b) {
      BindingStillFits(c, root, b);
    }
  }

  lemma PortsStillFed(c: Composition, root: Id)
    requires UniqueBy(c.nodes, NodeId) && PortsFed(c)
    ensures PortsFed(TornDown(c, root))
  {
    var t := TornDown(c, root);
    Kept(c, root);
    forall n, p | n in t.nodes && p in n.required ensures Fed(t, n, p) {
      assert Fed(c, n, p);
      KeepNodeIs(c, root, n);
      assert Feeds(t.bindings, Endpoint(n.id, p.id)) == Feeds(c.bindings, Endpoint(n.id, p.id));
    }
  }

  /* Prerequisites enclose. */

  /** Whatever a node waits for lives in a scope around the node's own. */
  lemma PrerequisitesEnclose(c: Composition, n: Node, m: Node)
    requires Linkable(c) && n in c.nodes && m in c.nodes && DependsOn(c, n.id, m.id)
    ensures Within(c, n.scope, m.scope)
  {
    if n' :| n' in c.nodes && n'.id == n.id && n'.owner.NodeOwner? && n'.owner.node == m.id {
      SameNode(c, n', n);
      assert NodeFits(c, n);
      var o :| o in c.nodes && o.id == n.owner.node && Owns(c, o, n);
      SameNode(c, o, m);
    } else {
      var b :| b in c.bindings && b.consumer.node == n.id && b.provider.node == m.id;
      assert BindingFits(c, b);
      var consumer, provider, required, provided :|
        && consumer in c.nodes && consumer.id == b.consumer.node
        && provider in c.nodes && provider.id == b.provider.node
        && required in consumer.required && required.id == b.consumer.port
        && provided in provider.provided && provided.id == b.provider.port
        && Links(c, consumer, provider, required, provided);
      SameNode(c, consumer, n);
      SameNode(c, provider, m);
      if n.scope == m.scope {
        SelfWithin(c, n);
      }
    }
  }

  lemma SelfWithin(c: Composition, n: Node)
    requires UniqueBy(c.scopes, ScopeId) && n in c.nodes && NodeFits(c, n)
    ensures Within(c, n.scope, n.scope)
  {
    IndexByIndexes(c.scopes, ScopeId);
    var s :| s in c.scopes && s.id == n.scope;
    assert ScopeId(s) in IndexBy(c.scopes, ScopeId);
    assert Up(IndexBy(c.scopes, ScopeId), n.scope, 0) == Some(n.scope);
  }

  /* Dependencies of what stays. */

  lemma DependsStill(c: Composition, root: Id, id: Str, d: Str)
    requires Linkable(c) && Removable(c, root) && id in NodeIds(TornDown(c, root))
    ensures DependsOn(TornDown(c, root), id, d) <==> DependsOn(c, id, d)
    ensures DependsOn(c, id, d) ==> d in NodeIds(TornDown(c, root))
  {
    var t := TornDown(c, root);
    Kept(c, root);
    var n :| n in t.nodes && n.id == id;
    KeepNodeIs(c, root, n);
    forall m | m in c.nodes && m.id == id ensures m == n {
      SameNode(c, m, n);
    }
    assert DependsOn(t, id, d) <==> DependsOn(c, id, d);
    if DependsOn(c, id, d) {
      forall n | n in c.nodes ensures OwnerKnown(c, n) {
        assert NodeFits(c, n);
      }
      DependencyKnown(c, id, d);
      var m :| m in c.nodes && m.id == d;
      PrerequisitesEnclose(c, n, m);
      KeptAbove(c, root, n.scope, m.scope);
      assert m in t.nodes;
    }
  }

  lemma DependenciesAt(c: Composition, root: Id, id: Str)
    requires Linkable(c) && Removable(c, root) && id in NodeIds(TornDown(c, root))
    ensures
      var kept, all := Dependencies(TornDown(c, root)), Dependencies(c);
      id in all && id in kept && kept[id] == all[id]
  {
    assert id in NodeIds(c) by {
      Kept(c, root);
      var n :| n in TornDown(c, root).nodes && n.id == id;
    }
    forall d ensures Needs(TornDown(c, root), id, d) <==> Needs(c, id, d) {
      DependsStill(c, root, id, d);
      StaysKnown(c, root, d);
    }
    SameNeeds(TornDown(c, root), c, id);
  }

  ghost predicate Needs(c: Composition, id: Str, d: Str) {
    d in NodeIds(c) && DependsOn(c, id, d)
  }

  lemma StaysKnown(c: Composition, root: Id, d: Str)
    ensures d in NodeIds(TornDown(c, root)) ==> d in NodeIds(c)
  {
    Kept(c, root);
  }

  lemma SameNeeds(a: Composition, b: Composition, id: Str)
    requires id in NodeIds(a) && id in NodeIds(b) && forall d :: Needs(a, id, d) <==> Needs(b, id, d)
    ensures Dependencies(a)[id] == Dependencies(b)[id]
  {
    assert forall d :: d in Dependencies(a)[id] <==> Needs(a, id, d);
    assert forall d :: d in Dependencies(b)[id] <==> Needs(b, id, d);
  }

  /** Nothing that stays waited for anything that goes. */
  lemma DependenciesStill(c: Composition, root: Id)
    requires Linkable(c) && Removable(c, root)
    ensures
      var kept, all := Dependencies(TornDown(c, root)), Dependencies(c);
      kept.Keys <= all.Keys && forall id :: id in kept ==> kept[id] == all[id] && kept[id] <= kept.Keys
  {
    forall id | id in NodeIds(TornDown(c, root))
      ensures id in Dependencies(c) && Dependencies(TornDown(c, root))[id] == Dependencies(c)[id]
    {
      DependenciesAt(c, root, id);
    }
  }

  lemma AcyclicStill(c: Composition, root: Id)
    requires Linkable(c) && Removable(c, root)
    ensures Acyclic(Dependencies(TornDown(c, root)))
  {
    DependenciesStill(c, root);
    forall p | IsCycle(p, Dependencies(TornDown(c, root))) ensures false {
      assert IsCycle(p, Dependencies(c));
    }
  }

  /** Tearing a scope down leaves a composition that links. */
  lemma TornDownLinks(c: Composition, root: Id)
    requires Linkable(c)
    requires forall s :: s in c.scopes && s.id == root ==> !s.lifetime.Service?
    ensures Linkable(TornDown(c, root))
  {
    TornScopesUnique(c, root);
    TornScopesTree(c, root);
    FilterUnique(c.nodes, (n: Node) => KeepScope(c, root, n.scope), NodeId);
    NodesStillFit(c, root);
    BindingsStillFit(c, root);
    PortsStillFed(c, root);
    AcyclicStill(c, root);
  }

  /* The order of what stays. */

  lemma {:induction false} FirstReadyAfter(a: seq<Str>, b: seq<Str>, deps: Deps, done: set<Str>)
    requires FirstReady(a, deps, done) == |a|
    ensures FirstReady(a + b, deps, done) == |a| + FirstReady(b, deps, done)
  {
    if a == [] {
      assert a + b == b;
    } else {
      assert (a + b)[1..] == a[1..] + b;
      FirstReadyAfter(a[1..], b, deps, done);
    }
  }

  /** `fewer` is `deps` on the nodes that stay, and those wait only for nodes that stay. */
  ghost predicate Restricts(fewer: Deps, deps: Deps, keep: Str -> bool) {
    && (forall x :: x in fewer <==> x in deps && keep(x))
    && (forall x :: x in fewer ==> fewer[x] == deps[x])
    && (forall x, d :: x in fewer && d in fewer[x] ==> keep(d))
  }

  ghost function KeptOf(done: set<Str>, keep: Str -> bool): set<Str> {
    set x | x in done && keep(x)
  }

  lemma ReadyRestricts(x: Str, fewer: Deps, deps: Deps, keep: Str -> bool, done: set<Str>)
    requires Restricts(fewer, deps, keep) && keep(x)
    ensures Ready(x, fewer, KeptOf(done, keep)) <==> Ready(x, deps, done)
  {
  }

  /** The first ready node, taken from the nodes that stay. */
  lemma FirstKept(remaining: seq<Str>, i: nat, fewer: Deps, deps: Deps, keep: Str -> bool, done: set<Str>)
    requires Restricts(fewer, deps, keep)
    requires i == FirstReady(remaining, deps, done) < |remaining| && keep(remaining[i])
    ensures
      var f := Filter(remaining, keep);
      var k := FirstReady(f, fewer, KeptOf(done, keep));
      k < |f| && f[k] == remaining[i] && Without(f, k) == Filter(Without(remaining, i), keep)
  {
    var a, x, b := remaining[..i], remaining[i], remaining[i + 1..];
    FilterAround(a, x, b, keep);
    assert remaining == a + ([x] + b);
    var fa, fb, kept := Filter(a, keep), Filter(b, keep), KeptOf(done, keep);
    NoneKeptReady(a, fewer, deps, keep, done);
    ReadyRestricts(x, fewer, deps, keep, done);
    FirstOfRest(fa, x, fb, fewer, kept);
  }

  lemma FilterAround(a: seq<Str>, x: Str, b: seq<Str>, keep: Str -> bool)
    requires keep(x)
    ensures Filter(a + ([x] + b), keep) == Filter(a, keep) + ([x] + Filter(b, keep))
    ensures Filter(a + b, keep) == Filter(a, keep) + Filter(b, keep)
  {
    assert ([x] + b)[1..] == b;
    FilterAppend(a, [x] + b, keep);
    FilterAppend(a, b, keep);
  }

  lemma FirstOfRest(a: seq<Str>, x: Str, b: seq<Str>, deps: Deps, done: set<Str>)
    requires FirstReady(a, deps, done) == |a| && Ready(x, deps, done)
    ensures
      var s := a + ([x] + b);
      FirstReady(s, deps, done) == |a| < |s| && s[|a|] == x && Without(s, |a|) == a + b
  {
    assert FirstReady([x] + b, deps, done) == 0;
    FirstReadyAfter(a, [x] + b, deps, done);
  }

  lemma NoneKeptReady(a: seq<Str>, fewer: Deps, deps: Deps, keep: Str -> bool, done: set<Str>)
    requires Restricts(fewer, deps, keep) && forall y :: y in a ==> !Ready(y, deps, done)
    ensures FirstReady(Filter(a, keep), fewer, KeptOf(done, keep)) == |Filter(a, keep)|
  {
    forall y | y in Filter(a, keep) ensures !Ready(y, fewer, KeptOf(done, keep)) {
      FilterIn(a, keep, y);
      ReadyRestricts(y, fewer, deps, keep, done);
    }
    NoneReadyIn(Filter(a, keep), fewer, KeptOf(done, keep));
  }

  lemma {:induction false} NoneReadyIn(s: seq<Str>, deps: Deps, done: set<Str>)
    requires forall y :: y in s ==> !Ready(y, deps, done)
    ensures FirstReady(s, deps, done) == |s|
  {
    if s != [] {
      NoneReadyIn(s[1..], deps, done);
    }
  }

  /** A node that goes leaves the rest where it was. */
  lemma FirstGone(remaining: seq<Str>, i: nat, keep: Str -> bool, done: set<Str>)
    requires i < |remaining| && !keep(remaining[i])
    ensures Filter(Without(remaining, i), keep) == Filter(remaining, keep)
    ensures KeptOf(done + {remaining[i]}, keep) == KeptOf(done, keep)
  {
    var a, x, b := remaining[..i], remaining[i], remaining[i + 1..];
    assert remaining == a + ([x] + b);
    FilterDrops(a, x, b, keep);
  }

  lemma FilterDrops<T>(a: seq<T>, x: T, b: seq<T>, keep: T -> bool)
    requires !keep(x)
    ensures Filter(a + b, keep) == Filter(a + ([x] + b), keep)
  {
    FilterCons(x, b, keep);
    FilterAppend(a, [x] + b, keep);
    FilterAppend(a, b, keep);
  }

  lemma FilterCons<T>(x: T, s: seq<T>, keep: T -> bool)
    ensures Filter([x] + s, keep) == if keep(x) then [x] + Filter(s, keep) else Filter(s, keep)
  {
    assert ([x] + s)[1..] == s;
  }

  lemma {:induction false} GreedyFilters(remaining: seq<Str>, fewer: Deps, deps: Deps, keep: Str -> bool,
                                         done: set<Str>)
    requires Restricts(fewer, deps, keep) && Greedy(remaining, deps, done).Some?
    ensures Greedy(Filter(remaining, keep), fewer, KeptOf(done, keep))
         == Some(Filter(Greedy(remaining, deps, done).value, keep))
    decreases |remaining|
  {
    if remaining != [] {
      var i := FirstReady(remaining, deps, done);
      var x := remaining[i];
      var rest := Greedy(Without(remaining, i), deps, done + {x}).value;
      GreedyFilters(Without(remaining, i), fewer, deps, keep, done + {x});
      FilterCons(x, rest, keep);
      if keep(x) {
        FirstKept(remaining, i, fewer, deps, keep, done);
        assert KeptOf(done + {x}, keep) == KeptOf(done, keep) + {x};
        var f := Filter(remaining, keep);
        assert Greedy(f, fewer, KeptOf(done, keep)) == Some([x] + Filter(rest, keep));
      } else {
        FirstGone(remaining, i, keep, done);
      }
    }
  }

  lemma SortedIds(c: Composition)
    requires UniqueBy(c.nodes, NodeId)
    ensures
      var ids := Ids(Proposed(c).nodes);
      Sorted(ids, Compare) && Distinct(ids) && Members(ids) == NodeIds(c)
  {
    var p := Proposed(c);
    ProposedSame(c);
    ProposedUnique(c);
    IdsSorted(p.nodes);
    IdsOf(p.nodes, IndexBy(p.nodes, NodeId));
    SameSymmetric(c, p);
    IdsForget(c, p);
    IdsForget(p, c);
    IdsAreNodeIds(p);
  }

  lemma ProposedUnique(c: Composition)
    requires UniqueBy(c.nodes, NodeId)
    ensures UniqueBy(Proposed(c).nodes, NodeId)
  {
    ProposedSame(c);
    UniqueViews(c.nodes);
    UniqueViews(Proposed(c).nodes);
    UniqueForgetsOrder(Views(c.nodes), Views(Proposed(c).nodes), ViewId);
  }

  lemma IdsAreNodeIds(p: Composition)
    ensures Members(Ids(p.nodes)) == NodeIds(p)
  {
    forall id ensures id in Members(Ids(p.nodes)) <==> id in NodeIds(p) {
      if id in Members(Ids(p.nodes)) {
        var i :| 0 <= i < |p.nodes| && Ids(p.nodes)[i] == id;
        assert p.nodes[i] in p.nodes;
      }
      if id in NodeIds(p) {
        var n :| n in p.nodes && n.id == id;
        var i :| 0 <= i < |p.nodes| && p.nodes[i] == n;
        assert Ids(p.nodes)[i] == id;
      }
    }
  }

  lemma {:induction false} FilterSorted(s: seq<Str>, keep: Str -> bool)
    requires Sorted(s, Compare) && Distinct(s)
    ensures Sorted(Filter(s, keep), Compare) && Distinct(Filter(s, keep))
  {
    if s != [] {
      var f := Filter(s[1..], keep);
      FilterSorted(s[1..], keep);
      forall y | y in f ensures Compare(s[0], y) <= 0 && y != s[0] {
        FilterIn(s[1..], keep, y);
        var i :| 0 <= i < |s[1..]| && s[1..][i] == y;
        assert s[i + 1] == y;
      }
      SortedCons(s[0], f, Compare);
      assert keep(s[0]) || Filter(s, keep) == f;
    }
  }

  lemma StrOrdered()
    ensures Comparator(Compare)
  {
    forall a, b ensures Flips(Compare, a, b) {
      CompareFlips(a, b);
    }
    forall a, b, c ensures Chains(Compare, a, b, c) {
      CompareTransits(a, b, c);
    }
  }

  lemma {:induction false} DistinctMultiset(s: seq<Str>, t: seq<Str>)
    requires Distinct(s) && Distinct(t) && Members(s) == Members(t)
    ensures multiset(s) == multiset(t)
  {
    forall x ensures multiset(s)[x] == multiset(t)[x] {
      OnceIn(s, x);
      OnceIn(t, x);
      assert x in Members(s) <==> x in Members(t);
    }
  }

  lemma {:induction false} OnceIn(s: seq<Str>, x: Str)
    requires Distinct(s)
    ensures multiset(s)[x] == if x in Members(s) then 1 else 0
  {
    if s != [] {
      assert s == [s[0]] + s[1..];
      OnceIn(s[1..], x);
    }
  }

  lemma SortedListingsEqual(s: seq<Str>, t: seq<Str>)
    requires Sorted(s, Compare) && Distinct(s) && Sorted(t, Compare) && Distinct(t) && Members(s) == Members(t)
    ensures s == t
  {
    StrOrdered();
    DistinctMultiset(s, t);
    forall a, b | a in s && b in s && Compare(a, b) == 0 ensures a == b {
      CompareZero(a, b);
    }
    SortedUnique(s, t, Compare);
  }

  ghost predicate KeptId(c: Composition, root: Id, id: Str) {
    id in NodeIds(TornDown(c, root))
  }

  lemma CheckedOrder(c: Composition, fingerprint: Str)
    requires Linkable(c)
    ensures Check(c, fingerprint).Ok?
    ensures Greedy(Ids(Proposed(c).nodes), Dependencies(c), {}) == Some(Check(c, fingerprint).value.dependencyOrder)
  {
    CheckIff(c, fingerprint);
    ProposedSame(c);
    DependenciesForget(c, Proposed(c));
    OutcomeReports(Proposed(c), fingerprint, Check(c, fingerprint).value);
  }

  /** What is left is accepted, and its dependency order is the old one without the nodes that went. */
  lemma TornDownOrder(c: Composition, root: Id, fingerprint: Str)
    requires Linkable(c)
    requires forall s :: s in c.scopes && s.id == root ==> !s.lifetime.Service?
    ensures Check(c, fingerprint).Ok? && Check(TornDown(c, root), fingerprint).Ok?
    ensures Check(TornDown(c, root), fingerprint).value.dependencyOrder
         == Filter(Check(c, fingerprint).value.dependencyOrder, (id: Str) => KeptId(c, root, id))
  {
    var t := TornDown(c, root);
    var keep := (id: Str) => KeptId(c, root, id);
    TornDownLinks(c, root);
    CheckedOrder(c, fingerprint);
    CheckedOrder(t, fingerprint);
    KeptIdsSorted(c, root);
    DependenciesStill(c, root);
    assert Restricts(Dependencies(t), Dependencies(c), keep);
    GreedyFilters(Ids(Proposed(c).nodes), Dependencies(t), Dependencies(c), keep, {});
    assert KeptOf({}, keep) == {};
  }

  lemma KeptIdsSorted(c: Composition, root: Id)
    requires Linkable(c) && Linkable(TornDown(c, root))
    ensures Ids(Proposed(TornDown(c, root)).nodes)
         == Filter(Ids(Proposed(c).nodes), (id: Str) => KeptId(c, root, id))
  {
    var keep := (id: Str) => KeptId(c, root, id);
    var all, kept := Ids(Proposed(c).nodes), Ids(Proposed(TornDown(c, root)).nodes);
    SortedIds(c);
    SortedIds(TornDown(c, root));
    FilterSorted(all, keep);
    Kept(c, root);
    forall id ensures id in Members(Filter(all, keep)) <==> id in Members(kept) {
      FilterIn(all, keep, id);
      if id in Members(kept) {
        var n :| n in TornDown(c, root).nodes && n.id == id;
        assert n.id in NodeIds(c);
        assert id in Members(all);
      }
    }
    SortedListingsEqual(kept, Filter(all, keep));
  }

  /* What the wire profile demands of what is left. */

  /** The lengths of lists that the profile admits: a proposal has at least one scope and one node. */
  predicate InProfile(c: Composition) {
    && 1 <= |c.scopes| <= 256 && 1 <= |c.nodes| <= 256 && |c.bindings| <= 2048
    && forall n :: n in c.nodes ==> |n.provided| <= 32 && |n.required| <= 32
  }

  lemma {:induction false} FilterShortens<T>(s: seq<T>, keep: T -> bool)
    ensures |Filter(s, keep)| <= |s|
  {
    if s != [] {
      FilterShortens(s[1..], keep);
    }
  }

  lemma TornShorter(c: Composition, root: Id)
    ensures
      var t := TornDown(c, root);
      |t.scopes| <= |c.scopes| && |t.nodes| <= |c.nodes| && |t.bindings| <= |c.bindings|
  {
    FilterShortens(c.scopes, (s: Scope) => KeepScope(c, root, s.id));
    FilterShortens(c.nodes, (n: Node) => KeepScope(c, root, n.scope));
    FilterShortens(c.bindings, (b: Binding) => KeepNode(c, root, b.consumer.node));
  }

  lemma SomeScopeStays(c: Composition, root: Id)
    requires Removable(c, root)
    ensures TornDown(c, root).scopes != []
  {
    var service :| service in c.scopes && service.lifetime.Service?;
    ServiceKept(c, root, service);
    FilterIn(c.scopes, (s: Scope) => KeepScope(c, root, s.id), service);
  }

  ghost predicate KeepsNode(c: Composition, root: Id) {
    exists n :: n in c.nodes && KeepScope(c, root, n.scope)
  }

  lemma SomeNodeStays(c: Composition, root: Id)
    ensures TornDown(c, root).nodes != [] <==> KeepsNode(c, root)
    ensures forall n :: n in TornDown(c, root).nodes ==> n in c.nodes
  {
    var keep := (n: Node) => KeepScope(c, root, n.scope);
    forall n ensures n in TornDown(c, root).nodes <==> n in c.nodes && keep(n) {
      FilterIn(c.nodes, keep, n);
    }
    if TornDown(c, root).nodes != [] {
      assert TornDown(c, root).nodes[0] in c.nodes;
    }
  }

  /** What is left stays within the profile exactly when some node is outside the scope. */
  lemma TornDownProfile(c: Composition, root: Id)
    requires Removable(c, root) && InProfile(c)
    ensures InProfile(TornDown(c, root)) <==> KeepsNode(c, root)
  {
    TornShorter(c, root);
    SomeScopeStays(c, root);
    SomeNodeStays(c, root);
  }

  const SERVICE: Scope := Scope([0x73], Service([0x76]))
  const OPERATION: Scope := Scope([0x6F], Operation([0x73], [0x70]))
  const LONE_NODE: Node := Node([0x6E], [0x6F], ServiceSite([0x76]), Core(Coordination), ScopeOwner, [], [])
  const LONE: Composition := Composition([SERVICE, OPERATION], [LONE_NODE], [])

  lemma LoneLinks()
    ensures Linkable(LONE)
  {
    assert SERVICE in LONE.scopes && OPERATION in LONE.scopes;
    assert Placed(LONE.scopes, OPERATION);
    assert NodeFits(LONE, LONE_NODE);
    assert PortTotal(LONE.nodes) == PortTotal(LONE.nodes[..0]) == 0;
    LoneAcyclic();
  }

  lemma LoneAcyclic()
    ensures Acyclic(Dependencies(LONE))
  {
    var deps := Dependencies(LONE);
    assert forall x :: x in deps ==> deps[x] == {};
    forall p ensures !IsCycle(p, deps) {
      assert |p| >= 2 ==> !(p[0] in deps && p[1] in deps[p[0]]);
    }
  }

  /** A composition whose only node is in the scope that is torn down. */
  lemma EmptiedByTeardown()
    ensures Linkable(LONE) && InProfile(LONE) && !InProfile(TornDown(LONE, OPERATION.id))
  {
    LoneLinks();
    var scopes := IndexBy(LONE.scopes, ScopeId);
    IndexByIndexes(LONE.scopes, ScopeId);
    assert ScopeId(OPERATION) in scopes;
    assert Up(scopes, OPERATION.id, 0) == Some(OPERATION.id);
    assert Within(LONE, LONE_NODE.scope, OPERATION.id);
    TornDownProfile(LONE, OPERATION.id);
  }
}
