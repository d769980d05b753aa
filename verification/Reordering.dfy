/** Declaration order carries no meaning: reordered compositions have one outcome. */
module Reordering {
  import opened Strings
  import opened Orders
  import opened Results
  import opened Composition
  import opened Scopes
  import opened Proposal
  import opened LinkSpec
  import opened Linking

  /* Equality up to order. */

  /** A node with the order of its ports forgotten. */
  datatype NodeView = NodeView(
    id: Id,
    scope: Id,
    site: Site,
    identity: Identity,
    owner: Owner,
    provided: multiset<ProvidedPort>,
    required: multiset<RequiredPort>)

  ghost function View(n: Node): NodeView {
    NodeView(n.id, n.scope, n.site, n.identity, n.owner, multiset(n.provided), multiset(n.required))
  }

  ghost function Views(ns: seq<Node>): (vs: seq<NodeView>)
    ensures |vs| == |ns|
    ensures forall i :: 0 <= i < |ns| ==> vs[i] == View(ns[i])
  {
    seq(|ns|, i requires 0 <= i < |ns| => View(ns[i]))
  }

  /** The same scopes, nodes, ports and bindings, in whatever order. */
  ghost predicate SameUpToOrder(c: Composition, d: Composition) {
    && multiset(c.scopes) == multiset(d.scopes)
    && multiset(Views(c.nodes)) == multiset(Views(d.nodes))
    && multiset(c.bindings) == multiset(d.bindings)
  }

  lemma InMultiset<T>(s: seq<T>, t: seq<T>, x: T)
    requires multiset(s) == multiset(t) && x in s
    ensures x in t
  {
    assert x in multiset(t);
  }

  /** Every node has a counterpart with the same view. */
  lemma Counterpart(ns: seq<Node>, ms: seq<Node>, n: Node) returns (m: Node)
    requires multiset(Views(ns)) == multiset(Views(ms)) && n in ns
    ensures m in ms && View(m) == View(n)
  {
    var i :| 0 <= i < |ns| && ns[i] == n;
    assert Views(ns)[i] in Views(ns);
    InMultiset(Views(ns), Views(ms), View(n));
    var j :| 0 <= j < |ms| && Views(ms)[j] == View(n);
    m := ms[j];
  }

  lemma ViewPorts(n: Node, m: Node)
    requires View(n) == View(m)
    ensures forall p :: p in n.provided <==> p in m.provided
    ensures forall p :: p in n.required <==> p in m.required
    ensures |n.provided| == |m.provided| && |n.required| == |m.required|
    ensures UniquePorts(n) <==> UniquePorts(m)
  {
    forall p ensures p in n.provided <==> p in m.provided {
      assert p in n.provided <==> p in multiset(n.provided);
      assert p in m.provided <==> p in multiset(m.provided);
    }
    forall p ensures p in n.required <==> p in m.required {
      assert p in n.required <==> p in multiset(n.required);
      assert p in m.required <==> p in multiset(m.required);
    }
    assert |multiset(n.provided)| == |multiset(m.provided)| && |multiset(n.required)| == |multiset(m.required)|;
    if UniquePorts(n) {
      PortsForgetOrder(n, m);
    }
    if UniquePorts(m) {
      PortsForgetOrder(m, n);
    }
  }

  lemma PortsForgetOrder(n: Node, m: Node)
    requires View(n) == View(m) && UniquePorts(n)
    ensures UniquePorts(m)
  {
    UniqueForgetsOrder(n.provided, m.provided, ProvidedId);
    UniqueForgetsOrder(n.required, m.required, RequiredId);
  }

  function ViewId(v: NodeView): Id {
    v.id
  }

  lemma UniqueViews(ns: seq<Node>)
    ensures UniqueBy(ns, NodeId) <==> UniqueBy(Views(ns), ViewId)
  {
    if UniqueBy(ns, NodeId) {
      forall i, j | 0 <= i < j < |ns| ensures ViewId(Views(ns)[i]) != ViewId(Views(ns)[j]) {
        assert NodeId(ns[i]) != NodeId(ns[j]);
      }
    }
    if UniqueBy(Views(ns), ViewId) {
      forall i, j | 0 <= i < j < |ns| ensures NodeId(ns[i]) != NodeId(ns[j]) {
        assert ViewId(Views(ns)[i]) != ViewId(Views(ns)[j]);
      }
    }
  }

  /* Sums and images forget order. */

  ghost function ViewTotal(vs: seq<NodeView>): nat {
    if vs == [] then 0
    else ViewTotal(vs[..|vs| - 1]) + |vs[|vs| - 1].provided| + |vs[|vs| - 1].required|
  }

  lemma {:induction false} PortTotalViews(ns: seq<Node>)
    ensures PortTotal(ns) == ViewTotal(Views(ns))
  {
    if ns != [] {
      var n := |ns| - 1;
      PortTotalViews(ns[..n]);
      assert Views(ns)[..n] == Views(ns[..n]);
    }
  }

  lemma {:induction false} ViewTotalWithout(vs: seq<NodeView>, i: nat)
    requires i < |vs|
    ensures ViewTotal(vs) == ViewTotal(vs[..i] + vs[i + 1..]) + |vs[i].provided| + |vs[i].required|
  {
    var n := |vs| - 1;
    if i == n {
      assert vs[..i] + vs[i + 1..] == vs[..n];
    } else {
      ViewTotalWithout(vs[..n], i);
      var rest := vs[..i] + vs[i + 1..];
      assert rest[..|rest| - 1] == vs[..n][..i] + vs[..n][i + 1..];
      assert rest[|rest| - 1] == vs[n];
    }
  }

  lemma {:induction false} ViewTotalForgets(vs: seq<NodeView>, ws: seq<NodeView>)
    requires multiset(vs) == multiset(ws)
    ensures ViewTotal(vs) == ViewTotal(ws)
  {
    if vs == [] {
      assert |multiset(ws)| == 0;
      assert ws == [];
    } else {
      var n := |vs| - 1;
      var last := vs[n];
      assert last in multiset(ws);
      var i :| 0 <= i < |ws| && ws[i] == last;
      ViewTotalWithout(ws, i);
      RemoveBoth(vs, ws, i);
      ViewTotalForgets(vs[..n], ws[..i] + ws[i + 1..]);
    }
  }

  lemma RemoveBoth<T>(s: seq<T>, t: seq<T>, i: nat)
    requires multiset(s) == multiset(t) && s != [] && i < |t| && t[i] == s[|s| - 1]
    ensures multiset(s[..|s| - 1]) == multiset(t[..i] + t[i + 1..])
  {
    var n := |s| - 1;
    Pulled(s, n);
    Pulled(t, i);
    assert s[..n] + s[n + 1..] == s[..n];
  }

  lemma {:induction false} ViewsForget(ns: seq<Node>, ms: seq<Node>)
    requires multiset(ns) == multiset(ms)
    ensures multiset(Views(ns)) == multiset(Views(ms))
  {
    if ns == [] {
      assert |multiset(ms)| == 0;
      assert ms == [];
    } else {
      var n := |ns| - 1;
      assert ns[n] in multiset(ms);
      var i :| 0 <= i < |ms| && ms[i] == ns[n];
      var rest := ms[..i] + ms[i + 1..];
      RemoveBoth(ns, ms, i);
      ViewsForget(ns[..n], rest);
      ViewsWithout(ns, n);
      assert ns[..n] + ns[n + 1..] == ns[..n];
      ViewsWithout(ms, i);
    }
  }

  lemma ViewsWithout(ns: seq<Node>, i: nat)
    requires i < |ns|
    ensures multiset(Views(ns)) == multiset(Views(ns[..i] + ns[i + 1..])) + multiset{View(ns[i])}
  {
    var a, x, b := ns[..i], [ns[i]], ns[i + 1..];
    assert ns == a + (x + b);
    ViewsAppend(a, x + b);
    ViewsAppend(x, b);
    ViewsAppend(a, b);
    assert Views(x) == [View(ns[i])];
  }

  lemma ViewsAppend(ns: seq<Node>, ms: seq<Node>)
    ensures Views(ns + ms) == Views(ns) + Views(ms)
  {
  }

  /** The sorted proposal is the composition, reordered. */
  lemma ProposedSame(c: Composition)
    ensures SameUpToOrder(c, Proposed(c))
    ensures Sorted(Proposed(c).scopes, CompareScopes) && Sorted(Proposed(c).nodes, CompareNodes)
  {
    var p := Proposed(c);
    ById(CompareScopes, ScopeId);
    SortSorts(c.scopes, CompareScopes);
    BindingsOrdered();
    SortSorts(c.bindings, CompareBindings);
    ById(CompareNodes, NodeId);
    SortSorts(SortAllPorts(c.nodes), CompareNodes);
    ViewsForget(SortAllPorts(c.nodes), p.nodes);
    forall i | 0 <= i < |c.nodes| ensures View(SortPorts(c.nodes[i])) == View(c.nodes[i]) {
      SortPortsView(c.nodes[i]);
    }
    assert Views(SortAllPorts(c.nodes)) == Views(c.nodes);
  }

  lemma SortPortsView(n: Node)
    ensures View(SortPorts(n)) == View(n)
  {
    ById(CompareProvided, ProvidedId);
    ById(CompareRequired, RequiredId);
    SortSorts(n.provided, CompareProvided);
    SortSorts(n.required, CompareRequired);
  }

  /* Linking forgets order. */

  lemma SameSymmetric(c: Composition, d: Composition)
    requires SameUpToOrder(c, d)
    ensures SameUpToOrder(d, c)
  {
  }

  lemma IndexForgets<T>(s: seq<T>, t: seq<T>, key: T -> Id)
    requires multiset(s) == multiset(t) && UniqueBy(s, key)
    ensures UniqueBy(t, key) && IndexBy(s, key) == IndexBy(t, key)
  {
    UniqueForgetsOrder(s, t, key);
    IndexByIndexes(s, key);
    IndexByIndexes(t, key);
    var m, n := IndexBy(s, key), IndexBy(t, key);
    forall k | k in m ensures k in n && n[k] == m[k] {
      InMultiset(s, t, m[k]);
    }
    forall k | k in n ensures k in m {
      InMultiset(t, s, n[k]);
    }
  }

  lemma ScopesForget(c: Composition, d: Composition)
    requires SameUpToOrder(c, d) && UniqueBy(c.scopes, ScopeId)
    ensures UniqueBy(d.scopes, ScopeId) && IndexBy(c.scopes, ScopeId) == IndexBy(d.scopes, ScopeId)
    ensures forall s :: s in c.scopes <==> s in d.scopes
    ensures forall inner, outer :: Within(c, inner, outer) <==> Within(d, inner, outer)
    ensures ScopeTree(c.scopes) ==> ScopeTree(d.scopes)
  {
    IndexForgets(c.scopes, d.scopes, ScopeId);
    forall s ensures s in c.scopes <==> s in d.scopes {
      assert s in c.scopes <==> s in multiset(c.scopes);
      assert s in d.scopes <==> s in multiset(d.scopes);
    }
    if ScopeTree(c.scopes) {
      forall s | s in d.scopes ensures Placed(d.scopes, s) {
        assert Placed(c.scopes, s);
      }
    }
  }

  lemma NodeForgets(c: Composition, d: Composition, n: Node, m: Node)
    requires SameUpToOrder(c, d) && UniqueBy(c.scopes, ScopeId)
    requires NodeFits(c, n) && View(n) == View(m)
    ensures NodeFits(d, m)
  {
    ScopesForget(c, d);
    ViewPorts(n, m);
    assert ScopeKnown(d, m.scope) && ServiceKnown(d, m.site.serviceId);
    assert OnItsMachine(d, m);
    if m.owner.NodeOwner? {
      var o :| o in c.nodes && o.id == n.owner.node && Owns(c, o, n);
      var o' := Counterpart(c.nodes, d.nodes, o);
      assert Owns(d, o', m);
    }
  }

  lemma NodesForget(c: Composition, d: Composition)
    requires SameUpToOrder(c, d) && UniqueBy(c.scopes, ScopeId) && NodesFit(c)
    ensures NodesFit(d)
  {
    forall m | m in d.nodes ensures NodeFits(d, m) {
      var n := Counterpart(d.nodes, c.nodes, m);
      NodeForgets(c, d, n, m);
    }
    forall m, m' | m in d.nodes && m' in d.nodes && SameSlot(m, m') ensures m.identity.release == m'.identity.release {
      var n := Counterpart(d.nodes, c.nodes, m);
      var n' := Counterpart(d.nodes, c.nodes, m');
      assert SameSlot(n, n');
    }
    PortTotalViews(c.nodes);
    PortTotalViews(d.nodes);
    ViewTotalForgets(Views(c.nodes), Views(d.nodes));
  }

  lemma BindingsForget(c: Composition, d: Composition)
    requires SameUpToOrder(c, d) && UniqueBy(c.scopes, ScopeId) && BindingsFit(c)
    ensures BindingsFit(d)
  {
    UniqueForgetsOrder(c.bindings, d.bindings, EdgeOf);
    ScopesForget(c, d);
    forall b | b in d.bindings ensures BindingFits(d, b) {
      InMultiset(d.bindings, c.bindings, b);
      assert BindingFits(c, b);
      var consumer, provider, required, provided :|
        && consumer in c.nodes && consumer.id == b.consumer.node
        && provider in c.nodes && provider.id == b.provider.node
        && required in consumer.required && required.id == b.consumer.port
        && provided in provider.provided && provided.id == b.provider.port
        && Links(c, consumer, provider, required, provided);
      var consumer' := Counterpart(c.nodes, d.nodes, consumer);
      var provider' := Counterpart(c.nodes, d.nodes, provider);
      ViewPorts(consumer, consumer');
      ViewPorts(provider, provider');
      assert Links(d, consumer', provider', required, provided);
    }
  }

  lemma BindingsSame(c: Composition, d: Composition)
    requires SameUpToOrder(c, d)
    ensures forall b :: b in c.bindings <==> b in d.bindings
  {
    forall b ensures b in c.bindings <==> b in d.bindings {
      assert b in c.bindings <==> b in multiset(c.bindings);
      assert b in d.bindings <==> b in multiset(d.bindings);
    }
  }

  lemma PortsForget(c: Composition, d: Composition)
    requires SameUpToOrder(c, d) && PortsFed(c)
    ensures PortsFed(d)
  {
    BindingsSame(c, d);
    forall m, p | m in d.nodes && p in m.required ensures Fed(d, m, p) {
      var n := Counterpart(d.nodes, c.nodes, m);
      ViewPorts(n, m);
      assert Fed(c, n, p);
      assert Feeds(c.bindings, Endpoint(n.id, p.id)) == Feeds(d.bindings, Endpoint(m.id, p.id));
    }
  }

  lemma DependsForgets(c: Composition, d: Composition, id: Str, x: Str)
    requires SameUpToOrder(c, d) && DependsOn(c, id, x)
    ensures DependsOn(d, id, x)
  {
    BindingsSame(c, d);
    if n :| n in c.nodes && n.id == id && n.owner.NodeOwner? && n.owner.node == x {
      var m := Counterpart(c.nodes, d.nodes, n);
    }
  }

  lemma IdsForget(c: Composition, d: Composition)
    requires SameUpToOrder(c, d)
    ensures NodeIds(c) <= NodeIds(d)
  {
    forall id | id in NodeIds(c) ensures id in NodeIds(d) {
      var n :| n in c.nodes && n.id == id;
      var m := Counterpart(c.nodes, d.nodes, n);
    }
  }

  lemma DependenciesForget(c: Composition, d: Composition)
    requires SameUpToOrder(c, d)
    ensures Dependencies(c) == Dependencies(d)
  {
    SameSymmetric(c, d);
    IdsForget(c, d);
    IdsForget(d, c);
    forall id, x ensures DependsOn(c, id, x) <==> DependsOn(d, id, x) {
      if DependsOn(c, id, x) { DependsForgets(c, d, id, x); }
      if DependsOn(d, id, x) { DependsForgets(d, c, id, x); }
    }
    forall id | id in NodeIds(c) ensures Dependencies(c)[id] == Dependencies(d)[id] {
    }
  }

  lemma LinkableForgets(c: Composition, d: Composition)
    requires SameUpToOrder(c, d) && Linkable(c)
    ensures Linkable(d)
  {
    ScopesForget(c, d);
    UniqueViews(c.nodes);
    UniqueViews(d.nodes);
    UniqueForgetsOrder(Views(c.nodes), Views(d.nodes), ViewId);
    NodesForget(c, d);
    BindingsForget(c, d);
    PortsForget(c, d);
    DependenciesForget(c, d);
  }

  /** The linker accepts exactly the compositions that link. */
  lemma CheckIff(c: Composition, fingerprint: Str)
    ensures Check(c, fingerprint).Ok? <==> Linkable(c)
  {
    ProposedSame(c);
    SameSymmetric(c, Proposed(c));
    OutcomeIff(Proposed(c), fingerprint);
    if Linkable(c) {
      LinkableForgets(c, Proposed(c));
    }
    if Linkable(Proposed(c)) {
      LinkableForgets(Proposed(c), c);
    }
  }

  /* The outcome forgets order, complaints included. */

  /** Listings whose nodes agree, one by one, up to the order of ports. */
  ghost predicate Alike(ns: seq<Node>, ms: seq<Node>) {
    |ns| == |ms| && forall i :: 0 <= i < |ns| ==> View(ns[i]) == View(ms[i])
  }

  function CompareViews(a: NodeView, b: NodeView): int {
    Compare(a.id, b.id)
  }

  lemma SortedViews(ns: seq<Node>)
    requires Sorted(ns, CompareNodes)
    ensures Sorted(Views(ns), CompareViews)
  {
    forall i, j | 0 <= i < j < |ns| ensures CompareViews(Views(ns)[i], Views(ns)[j]) <= 0 {
      assert CompareNodes(ns[i], ns[j]) <= 0;
    }
  }

  lemma SortedAlike(ns: seq<Node>, ms: seq<Node>)
    requires multiset(Views(ns)) == multiset(Views(ms)) && UniqueBy(ns, NodeId)
    requires Sorted(ns, CompareNodes) && Sorted(ms, CompareNodes)
    ensures Alike(ns, ms)
  {
    SortedViews(ns);
    SortedViews(ms);
    UniqueViews(ns);
    ById(CompareViews, ViewId);
    UniqueSeparates(Views(ns), CompareViews, ViewId);
    SortedUnique(Views(ns), Views(ms), CompareViews);
    forall i | 0 <= i < |ns| ensures View(ns[i]) == View(ms[i]) {
      assert Views(ns)[i] == Views(ms)[i];
    }
  }

  /** Node maps with the same names and alike nodes. */
  ghost predicate AlikeMaps(m: NodeMap, n: NodeMap) {
    m.Keys == n.Keys && forall id :: id in m ==> View(m[id]) == View(n[id])
  }

  lemma {:induction false} IndexAlike(ns: seq<Node>, ms: seq<Node>)
    requires Alike(ns, ms)
    ensures AlikeMaps(IndexBy(ns, NodeId), IndexBy(ms, NodeId))
  {
    if ns != [] {
      var n := |ns| - 1;
      assert View(ns[n]) == View(ms[n]);
      IndexAlike(ns[..n], ms[..n]);
    }
  }

  lemma {:induction false} PortTotalAlike(ns: seq<Node>, ms: seq<Node>)
    requires Alike(ns, ms)
    ensures PortTotal(ns) == PortTotal(ms)
  {
    PortTotalViews(ns);
    PortTotalViews(ms);
    assert Views(ns) == Views(ms);
  }

  lemma ConflictsAlike(ns: seq<Node>, ms: seq<Node>, n: Node, m: Node)
    requires Alike(ns, ms) && View(n) == View(m) && Conflicts(ns, n)
    ensures Conflicts(ms, m)
  {
    var j :| 0 <= j < |ns| && SameSlot(ns[j], n) && ns[j].identity.release != n.identity.release;
    assert View(ns[j]) == View(ms[j]);
    assert SameSlot(ms[j], m);
  }

  lemma NodeErrorAlike(ns: seq<Node>, ms: seq<Node>, i: nat, scopes: ScopeMap, a: NodeMap, b: NodeMap, service: Id)
    requires Alike(ns, ms) && AlikeMaps(a, b) && i < |ns|
    ensures NodeError(ns, i, scopes, a, service) == NodeError(ms, i, scopes, b, service)
  {
    var n, m := ns[i], ms[i];
    assert View(n) == View(m);
    ViewPorts(n, m);
    SlotsAlike(ns, ms, i);
    forall chain ensures OwnerFits(n, chain, a) == OwnerFits(m, chain, b) {
      OwnerFitsAlike(n, m, chain, a, b);
    }
  }

  lemma OwnerFitsAlike(n: Node, m: Node, chain: seq<Scope>, a: NodeMap, b: NodeMap)
    requires View(n) == View(m) && AlikeMaps(a, b)
    ensures OwnerFits(n, chain, a) == OwnerFits(m, chain, b)
  {
    if n.owner.NodeOwner? && n.owner.node in a {
      assert View(a[n.owner.node]) == View(b[n.owner.node]);
    }
  }

  lemma SlotsAlike(ns: seq<Node>, ms: seq<Node>, i: nat)
    requires Alike(ns, ms) && i < |ns|
    ensures Conflicts(ns[..i], ns[i]) <==> Conflicts(ms[..i], ms[i])
    ensures PortTotal(ns[..i + 1]) == PortTotal(ms[..i + 1])
  {
    assert View(ns[i]) == View(ms[i]);
    assert Alike(ns[..i], ms[..i]) && Alike(ms[..i], ns[..i]) && Alike(ns[..i + 1], ms[..i + 1]);
    PortTotalAlike(ns[..i + 1], ms[..i + 1]);
    if Conflicts(ns[..i], ns[i]) {
      ConflictsAlike(ns[..i], ms[..i], ns[i], ms[i]);
    }
    if Conflicts(ms[..i], ms[i]) {
      ConflictsAlike(ms[..i], ns[..i], ms[i], ns[i]);
    }
  }

  lemma {:induction false} NodesErrorAlike(ns: seq<Node>, ms: seq<Node>, i: nat, scopes: ScopeMap, a: NodeMap,
                                           b: NodeMap, service: Id)
    requires Alike(ns, ms) && AlikeMaps(a, b)
    ensures NodesError(ns, i, scopes, a, service) == NodesError(ms, i, scopes, b, service)
    decreases |ns| - i
  {
    if i < |ns| {
      NodeErrorAlike(ns, ms, i, scopes, a, b, service);
      NodesErrorAlike(ns, ms, i + 1, scopes, a, b, service);
    }
  }

  /** Sorted ports that agree and do not repeat are in the same order. */
  ghost predicate PortsSorted(n: Node) {
    Sorted(n.provided, CompareProvided) && Sorted(n.required, CompareRequired)
  }

  lemma SortedPortsEqual(n: Node, m: Node)
    requires View(n) == View(m) && UniquePorts(n) && PortsSorted(n) && PortsSorted(m)
    ensures n == m
  {
    ById(CompareProvided, ProvidedId);
    ById(CompareRequired, RequiredId);
    UniqueSeparates(n.provided, CompareProvided, ProvidedId);
    UniqueSeparates(n.required, CompareRequired, RequiredId);
    SortedUnique(n.provided, m.provided, CompareProvided);
    SortedUnique(n.required, m.required, CompareRequired);
  }

  lemma ProposedPortsSorted(c: Composition)
    ensures forall n :: n in Proposed(c).nodes ==> PortsSorted(n)
  {
    ById(CompareNodes, NodeId);
    SortSorts(SortAllPorts(c.nodes), CompareNodes);
    forall n | n in Proposed(c).nodes ensures PortsSorted(n) {
      InMultiset(Proposed(c).nodes, SortAllPorts(c.nodes), n);
      var i :| 0 <= i < |c.nodes| && SortAllPorts(c.nodes)[i] == n;
      ById(CompareProvided, ProvidedId);
      ById(CompareRequired, RequiredId);
      SortSorts(c.nodes[i].provided, CompareProvided);
      SortSorts(c.nodes[i].required, CompareRequired);
    }
  }

  lemma AlikeSortedEqual(ns: seq<Node>, ms: seq<Node>)
    requires Alike(ns, ms) && forall n :: n in ns ==> PortsSorted(n) && UniquePorts(n)
    requires forall m :: m in ms ==> PortsSorted(m)
    ensures ns == ms
  {
    forall i | 0 <= i < |ns| ensures ns[i] == ms[i] {
      assert ns[i] in ns && ms[i] in ms;
      SortedPortsEqual(ns[i], ms[i]);
    }
  }

  lemma QuietUniquePorts(ns: seq<Node>, scopes: ScopeMap, nodes: NodeMap, service: Id)
    requires NodesError(ns, 0, scopes, nodes, service).None?
    ensures forall n :: n in ns ==> UniquePorts(n)
  {
    NodesErrorNone(ns, 0, scopes, nodes, service);
    forall n | n in ns ensures UniquePorts(n) {
      var i :| 0 <= i < |ns| && ns[i] == n;
      assert NodeError(ns, i, scopes, nodes, service).None?;
    }
  }

  /** Once no node complains, its ports are unique, and the sorted nodes are equal outright. */
  lemma NodesOutcomeForgets(p: Composition, q: Composition, fingerprint: Str, service: Id)
    requires p.scopes == q.scopes && p.bindings == q.bindings
    requires multiset(Views(p.nodes)) == multiset(Views(q.nodes))
    requires Sorted(p.nodes, CompareNodes) && Sorted(q.nodes, CompareNodes)
    requires (forall n :: n in p.nodes ==> PortsSorted(n)) && (forall m :: m in q.nodes ==> PortsSorted(m))
    ensures NodesOutcome(p, fingerprint, service) == NodesOutcome(q, fingerprint, service)
  {
    UniqueViews(p.nodes);
    UniqueViews(q.nodes);
    if UniqueBy(p.nodes, NodeId) {
      UniqueForgetsOrder(Views(p.nodes), Views(q.nodes), ViewId);
      SortedAlike(p.nodes, q.nodes);
      var scopes, a, b := IndexBy(p.scopes, ScopeId), IndexBy(p.nodes, NodeId), IndexBy(q.nodes, NodeId);
      IndexAlike(p.nodes, q.nodes);
      NodesErrorAlike(p.nodes, q.nodes, 0, scopes, a, b, service);
      if NodesError(p.nodes, 0, scopes, a, service).None? {
        QuietUniquePorts(p.nodes, scopes, a, service);
        AlikeSortedEqual(p.nodes, q.nodes);
        assert p == q;
      }
    } else if UniqueBy(q.nodes, NodeId) {
      UniqueForgetsOrder(Views(q.nodes), Views(p.nodes), ViewId);
    }
  }

  /** Reordering scopes, nodes, ports and bindings changes neither the report nor the complaint. */
  lemma CheckForgetsOrder(c: Composition, d: Composition, fingerprint: Str)
    requires SameUpToOrder(c, d)
    ensures Check(c, fingerprint) == Check(d, fingerprint)
  {
    var p, q := Proposed(c), Proposed(d);
    ProposedSame(c);
    ProposedSame(d);
    ProposedPortsSorted(c);
    ProposedPortsSorted(d);
    SortBindingsForgets(c.bindings, d.bindings);
    if UniqueBy(p.scopes, ScopeId) {
      UniqueForgetsOrder(p.scopes, c.scopes, ScopeId);
      SortById(c.scopes, d.scopes, CompareScopes, ScopeId);
      var service := ScopesOutcome(p.scopes, IndexBy(p.scopes, ScopeId));
      if service.Ok? {
        NodesOutcomeForgets(p, q, fingerprint, service.value);
      }
    } else if UniqueBy(q.scopes, ScopeId) {
      UniqueForgetsOrder(q.scopes, p.scopes, ScopeId);
    }
  }
}
