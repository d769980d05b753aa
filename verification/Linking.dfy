/**
 * What it means for a composition to link, said without any order: the linker
 * accepts exactly these compositions.
 */
module Linking {
  import opened Strings
  import opened Orders
  import opened Results
  import opened Composition
  import opened Graph
  import opened Scopes
  import opened Proposal
  import opened LinkSpec
  import opened Linker

  /* The meaning. */

  /** Scope `inner` is scope `outer` or lies inside it. */
  ghost predicate Within(c: Composition, inner: Id, outer: Id) {
    Encloses(IndexBy(c.scopes, ScopeId), outer, inner)
  }

  ghost predicate ScopeKnown(c: Composition, id: Id) {
    exists s :: s in c.scopes && s.id == id
  }

  ghost predicate ServiceKnown(c: Composition, id: Id) {
    exists s :: s in c.scopes && s.lifetime == Service(id)
  }

  /** A node in a machine's scope runs on that machine. */
  ghost predicate OnItsMachine(c: Composition, n: Node) {
    forall s :: s in c.scopes && s.lifetime.Machine? && Within(c, n.scope, s.id) ==>
      n.site.MachineSite? && n.site.machineId == s.lifetime.machineId
  }

  ghost predicate Owns(c: Composition, owner: Node, n: Node) {
    owner.id != n.id && owner.site == n.site && Within(c, n.scope, owner.scope)
  }

  ghost predicate OwnerKnown(c: Composition, n: Node) {
    n.owner.NodeOwner? ==> exists m :: m in c.nodes && m.id == n.owner.node && Owns(c, m, n)
  }

  ghost predicate NodeFits(c: Composition, n: Node) {
    && ScopeKnown(c, n.scope)
    && ServiceKnown(c, n.site.serviceId)
    && OnItsMachine(c, n)
    && (n.identity.Plugin? && n.identity.execution.Isolated? ==> n.site.MachineSite?)
    && OwnerKnown(c, n)
    && UniquePorts(n)
  }

  ghost predicate OneRelease(ns: seq<Node>) {
    forall m, n :: m in ns && n in ns && SameSlot(m, n) ==> m.identity.release == n.identity.release
  }

  function EdgeOf(b: Binding): (Endpoint, Endpoint) {
    (b.consumer, b.provider)
  }

  ghost predicate DistinctEdges(bs: seq<Binding>) {
    UniqueBy(bs, EdgeOf)
  }

  /** The two ports may be bound. */
  ghost predicate Links(c: Composition, consumer: Node, provider: Node, required: RequiredPort,
                        provided: ProvidedPort)
  {
    && required.contract == provided.contract
    && (consumer.scope == provider.scope
        || (provided.visibility.Descendants? && Within(c, consumer.scope, provider.scope)))
    && (consumer.site != provider.site ==> provided.transport.Remote?)
  }

  ghost predicate BindingFits(c: Composition, b: Binding) {
    exists consumer, provider, required, provided ::
      && consumer in c.nodes && consumer.id == b.consumer.node
      && provider in c.nodes && provider.id == b.provider.node
      && required in consumer.required && required.id == b.consumer.port
      && provided in provider.provided && provided.id == b.provider.port
      && Links(c, consumer, provider, required, provided)
  }

  /** The provided ports bound to the required port `e`. */
  ghost function Feeds(bs: seq<Binding>, e: Endpoint): set<Endpoint> {
    set b | b in bs && b.consumer == e :: b.provider
  }

  /** As many providers feed the port as it asks for. */
  ghost predicate Fed(c: Composition, n: Node, p: RequiredPort) {
    var providers := |Feeds(c.bindings, Endpoint(n.id, p.id))|;
    (p.cardinality.One? ==> providers == 1) && (p.cardinality.Optional? ==> providers <= 1)
  }

  ghost predicate DependsOn(c: Composition, id: Str, d: Str) {
    || (exists n :: n in c.nodes && n.id == id && n.owner.NodeOwner? && n.owner.node == d)
    || (exists b :: b in c.bindings && b.consumer.node == id && b.provider.node == d)
  }

  ghost function NodeIds(c: Composition): set<Str> {
    set n | n in c.nodes :: n.id
  }

  /** Everything a node waits for: its owner and the providers bound to it. */
  ghost function Dependencies(c: Composition): Deps {
    map id | id in NodeIds(c) :: set d | d in NodeIds(c) && DependsOn(c, id, d)
  }

  ghost predicate NodesFit(c: Composition) {
    (forall n :: n in c.nodes ==> NodeFits(c, n)) && OneRelease(c.nodes) && PortTotal(c.nodes) <= PORT_BUDGET
  }

  ghost predicate BindingsFit(c: Composition) {
    DistinctEdges(c.bindings) && forall b :: b in c.bindings ==> BindingFits(c, b)
  }

  ghost predicate PortsFed(c: Composition) {
    forall n, p :: n in c.nodes && p in n.required ==> Fed(c, n, p)
  }

  /** The declarative meaning of a composition that links. */
  ghost predicate Linkable(c: Composition) {
    && UniqueBy(c.scopes, ScopeId) && ScopeTree(c.scopes)
    && UniqueBy(c.nodes, NodeId)
    && NodesFit(c) && BindingsFit(c) && PortsFed(c)
    && Acyclic(Dependencies(c))
  }

  /* Scopes as the linker sees them. */

  ghost predicate Treed(c: Composition, scopes: ScopeMap, nodes: NodeMap, service: Id) {
    && UniqueBy(c.scopes, ScopeId) && ScopeTree(c.scopes) && ServiceKnown(c, service)
    && scopes == IndexBy(c.scopes, ScopeId) && Indexes(scopes, c.scopes, ScopeId)
    && WellKinded(scopes) && (forall k :: k in scopes ==> scopes[k].id == k)
    && UniqueBy(c.nodes, NodeId) && nodes == IndexBy(c.nodes, NodeId) && Indexes(nodes, c.nodes, NodeId)
  }

  lemma ServiceIs(c: Composition, scopes: ScopeMap, nodes: NodeMap, service: Id, id: Id)
    requires Treed(c, scopes, nodes, service)
    ensures ServiceKnown(c, id) <==> id == service
  {
  }

  lemma ScopeIs(c: Composition, scopes: ScopeMap, id: Id)
    requires Indexes(scopes, c.scopes, ScopeId)
    ensures ScopeKnown(c, id) <==> id in scopes
  {
    if ScopeKnown(c, id) {
      var s :| s in c.scopes && s.id == id;
      assert ScopeId(s) in scopes;
    }
  }

  lemma {:induction false} MachineOfChain(scopes: ScopeMap, id: Id)
    requires WellKinded(scopes) && id in scopes
    ensures forall s :: s in UpChain(scopes, id) && s.lifetime.Machine? ==>
      FindMachine(UpChain(scopes, id)) == Some(s.lifetime.machineId)
    ensures FindMachine(UpChain(scopes, id)).Some? ==>
      exists s :: s in UpChain(scopes, id) && s.lifetime.Machine?
    ensures forall s :: s in UpChain(scopes, id) ==> Rank(s.lifetime) <= Rank(scopes[id].lifetime)
    decreases Rank(scopes[id].lifetime)
  {
    var chain := UpChain(scopes, id);
    if scopes[id].lifetime.Service? {
      assert FindMachine(chain[1..]) == None;
    } else {
      var up := UpChain(scopes, scopes[id].lifetime.parent);
      MachineOfChain(scopes, scopes[id].lifetime.parent);
      assert chain[1..] == up;
    }
  }

  lemma MisplacedIs(c: Composition, scopes: ScopeMap, n: Node)
    requires Indexes(scopes, c.scopes, ScopeId) && scopes == IndexBy(c.scopes, ScopeId)
    requires WellKinded(scopes) && n.scope in scopes && forall k :: k in scopes ==> scopes[k].id == k
    ensures Chain(Some(n.scope), scopes, []).Ok?
    ensures Misplaced(n.site, Chain(Some(n.scope), scopes, []).value) <==> !OnItsMachine(c, n)
  {
    ChainEncloses(scopes, n.scope);
    ChainWellKinded(scopes, n.scope, []);
    var chain := Chain(Some(n.scope), scopes, []).value;
    assert chain == UpChain(scopes, n.scope);
    MachineOfChain(scopes, n.scope);
    forall s | s in c.scopes && s.lifetime.Machine?
      ensures Within(c, n.scope, s.id) <==> s in chain
    {
      InChain(c, scopes, chain, s);
      assert Encloses(scopes, s.id, n.scope) <==> Visits(chain, s.id);
    }
    forall s | s in chain ensures s in c.scopes {
      assert scopes[s.id] == s;
    }
  }

  lemma InChain(c: Composition, scopes: ScopeMap, chain: seq<Scope>, s: Scope)
    requires Indexes(scopes, c.scopes, ScopeId) && s in c.scopes
    requires forall t :: t in chain ==> t.id in scopes && scopes[t.id] == t
    ensures s in chain <==> Visits(chain, s.id)
  {
    assert ScopeId(s) in scopes && scopes[s.id] == s;
    if Visits(chain, s.id) {
      var i :| 0 <= i < |chain| && chain[i].id == s.id;
      assert chain[i] in chain;
    }
    if s in chain {
      var i :| 0 <= i < |chain| && chain[i] == s;
      assert chain[i].id == s.id;
    }
  }

  lemma VisitsIs(c: Composition, scopes: ScopeMap, inner: Id, outer: Id)
    requires scopes == IndexBy(c.scopes, ScopeId) && WellKinded(scopes) && inner in scopes
    requires forall k :: k in scopes ==> scopes[k].id == k
    ensures Chain(Some(inner), scopes, []).Ok?
    ensures Visits(Chain(Some(inner), scopes, []).value, outer) <==> Within(c, inner, outer)
  {
    ChainEncloses(scopes, inner);
  }

  /* Nodes. */

  lemma OwnerIs(c: Composition, scopes: ScopeMap, nodes: NodeMap, service: Id, n: Node)
    requires Treed(c, scopes, nodes, service) && n.scope in scopes
    ensures Chain(Some(n.scope), scopes, []).Ok?
    ensures OwnerFits(n, Chain(Some(n.scope), scopes, []).value, nodes) <==> OwnerKnown(c, n)
  {
    ChainEncloses(scopes, n.scope);
    if n.owner.NodeOwner? {
      var chain := Chain(Some(n.scope), scopes, []).value;
      if OwnerFits(n, chain, nodes) {
        var m := nodes[n.owner.node];
        assert m in c.nodes && NodeId(m) == n.owner.node;
        VisitsIs(c, scopes, n.scope, m.scope);
        assert Owns(c, m, n);
      }
      if OwnerKnown(c, n) {
        var m :| m in c.nodes && m.id == n.owner.node && Owns(c, m, n);
        assert NodeId(m) in nodes && nodes[NodeId(m)] == m;
        VisitsIs(c, scopes, n.scope, m.scope);
      }
    }
  }

  /** The checks on one node, apart from those that look at other nodes' releases and ports. */
  lemma NodeErrorIs(c: Composition, scopes: ScopeMap, nodes: NodeMap, service: Id, i: nat)
    requires Treed(c, scopes, nodes, service) && i < |c.nodes|
    ensures NodeError(c.nodes, i, scopes, nodes, service).None?
      <==> NodeFits(c, c.nodes[i]) && !Conflicts(c.nodes[..i], c.nodes[i]) && PortTotal(c.nodes[..i + 1]) <= PORT_BUDGET
  {
    var n := c.nodes[i];
    ScopeIs(c, scopes, n.scope);
    ServiceIs(c, scopes, nodes, service, n.site.serviceId);
    if n.scope in scopes {
      MisplacedIs(c, scopes, n);
      OwnerIs(c, scopes, nodes, service, n);
    } else {
      assert Chain(Some(n.scope), scopes, []) == Err(UnknownScope);
    }
  }

  lemma {:induction false} NodesErrorNone(ns: seq<Node>, i: nat, scopes: ScopeMap, nodes: NodeMap, service: Id)
    ensures NodesError(ns, i, scopes, nodes, service).None?
      <==> forall k :: i <= k < |ns| ==> NodeError(ns, k, scopes, nodes, service).None?
    decreases |ns| - i
  {
    if i < |ns| && NodeError(ns, i, scopes, nodes, service).None? {
      NodesErrorNone(ns, i + 1, scopes, nodes, service);
    }
  }

  lemma {:induction false} PortTotalGrows(ns: seq<Node>, i: nat)
    requires i <= |ns|
    ensures PortTotal(ns[..i]) <= PortTotal(ns)
  {
    if i == |ns| {
      assert ns[..i] == ns;
    } else {
      var init := ns[..|ns| - 1];
      PortTotalGrows(init, i);
      assert init[..i] == ns[..i];
    }
  }

  lemma ReleasesAgree(ns: seq<Node>)
    ensures OneRelease(ns) <==> forall i :: 0 <= i < |ns| ==> !Conflicts(ns[..i], ns[i])
  {
    if OneRelease(ns) {
      forall i | 0 <= i < |ns| ensures !Conflicts(ns[..i], ns[i]) {
        forall j | 0 <= j < i && SameSlot(ns[..i][j], ns[i])
          ensures ns[..i][j].identity.release == ns[i].identity.release
        {
          assert ns[j] in ns && ns[i] in ns;
        }
      }
    }
    if forall i :: 0 <= i < |ns| ==> !Conflicts(ns[..i], ns[i]) {
      forall m, n | m in ns && n in ns && SameSlot(m, n) ensures m.identity.release == n.identity.release {
        var i :| 0 <= i < |ns| && ns[i] == m;
        var j :| 0 <= j < |ns| && ns[j] == n;
        if i < j {
          assert !Conflicts(ns[..j], ns[j]);
          assert SameSlot(ns[..j][i], ns[j]);
        } else if j < i {
          assert !Conflicts(ns[..i], ns[i]);
          assert SameSlot(ns[..i][j], ns[i]);
        }
      }
    }
  }

  ghost predicate NodeOk(c: Composition, i: nat)
    requires i < |c.nodes|
  {
    NodeFits(c, c.nodes[i]) && !Conflicts(c.nodes[..i], c.nodes[i]) && PortTotal(c.nodes[..i + 1]) <= PORT_BUDGET
  }

  lemma AllNodesOk(c: Composition)
    ensures (forall i :: 0 <= i < |c.nodes| ==> NodeOk(c, i))
      <==> NodesFit(c)
  {
    ReleasesAgree(c.nodes);
    if forall i :: 0 <= i < |c.nodes| ==> NodeOk(c, i) {
      forall n | n in c.nodes ensures NodeFits(c, n) {
        var i :| 0 <= i < |c.nodes| && c.nodes[i] == n;
        assert NodeOk(c, i);
      }
      forall i | 0 <= i < |c.nodes| ensures !Conflicts(c.nodes[..i], c.nodes[i]) {
        assert NodeOk(c, i);
      }
      if c.nodes != [] {
        assert NodeOk(c, |c.nodes| - 1);
        assert c.nodes[..|c.nodes|] == c.nodes;
      }
    }
    if NodesFit(c) {
      forall i | 0 <= i < |c.nodes| ensures NodeOk(c, i) {
        PortTotalGrows(c.nodes, i + 1);
        assert c.nodes[i] in c.nodes;
      }
    }
  }

  lemma NodesErrorIs(c: Composition, scopes: ScopeMap, nodes: NodeMap, service: Id)
    requires Treed(c, scopes, nodes, service)
    ensures NodesError(c.nodes, 0, scopes, nodes, service).None? <==> NodesFit(c)
  {
    NodesErrorNone(c.nodes, 0, scopes, nodes, service);
    AllNodesOk(c);
    forall i | 0 <= i < |c.nodes|
      ensures NodeError(c.nodes, i, scopes, nodes, service).None? <==> NodeOk(c, i)
    {
      NodeErrorIs(c, scopes, nodes, service, i);
    }
  }

  /* Bindings. */

  lemma VisibleIs(c: Composition, scopes: ScopeMap, consumer: Node, provider: Node, provided: ProvidedPort)
    requires scopes == IndexBy(c.scopes, ScopeId) && WellKinded(scopes) && consumer.scope in scopes
    requires forall k :: k in scopes ==> scopes[k].id == k
    ensures Visible(consumer, provider, provided, scopes).Ok?
    ensures Visible(consumer, provider, provided, scopes).value <==>
      consumer.scope == provider.scope
      || (provided.visibility.Descendants? && Within(c, consumer.scope, provider.scope))
  {
    VisitsIs(c, scopes, consumer.scope, provider.scope);
  }

  lemma PortFound<T>(ports: seq<T>, key: T -> Id, p: T, q: T)
    requires UniqueBy(ports, key) && p in ports && q in ports && key(p) == key(q)
    ensures p == q
  {
    var i :| 0 <= i < |ports| && ports[i] == p;
    var j :| 0 <= j < |ports| && ports[j] == q;
    UniqueAt(ports, key, i, j);
  }

  ghost predicate EndsExist(b: Binding, nodes: NodeMap) {
    && b.consumer.node in nodes && b.provider.node in nodes
    && FindRequired(nodes[b.consumer.node].required, b.consumer.port).Some?
    && FindProvided(nodes[b.provider.node].provided, b.provider.port).Some?
  }

  /** The ends a binding names are the ones the linker finds. */
  lemma BindingFitsFound(c: Composition, nodes: NodeMap, b: Binding)
    requires Indexes(nodes, c.nodes, NodeId) && forall n :: n in c.nodes ==> UniquePorts(n)
    ensures BindingFits(c, b) <==>
      && EndsExist(b, nodes)
      && Links(c, nodes[b.consumer.node], nodes[b.provider.node],
               FindRequired(nodes[b.consumer.node].required, b.consumer.port).value,
               FindProvided(nodes[b.provider.node].provided, b.provider.port).value)
  {
    if BindingFits(c, b) {
      var consumer, provider, required, provided :|
        && consumer in c.nodes && consumer.id == b.consumer.node
        && provider in c.nodes && provider.id == b.provider.node
        && required in consumer.required && required.id == b.consumer.port
        && provided in provider.provided && provided.id == b.provider.port
        && Links(c, consumer, provider, required, provided);
      assert NodeId(consumer) in nodes && nodes[NodeId(consumer)] == consumer;
      assert NodeId(provider) in nodes && nodes[NodeId(provider)] == provider;
      PortFound(consumer.required, RequiredId, required, FindRequired(consumer.required, b.consumer.port).value);
      PortFound(provider.provided, ProvidedId, provided, FindProvided(provider.provided, b.provider.port).value);
    }
    if EndsExist(b, nodes) {
      var consumer, provider := nodes[b.consumer.node], nodes[b.provider.node];
      assert NodeId(consumer) == b.consumer.node && NodeId(provider) == b.provider.node;
      assert consumer in c.nodes && provider in c.nodes;
    }
  }

  lemma LinkErrorIs(c: Composition, scopes: ScopeMap, consumer: Node, provider: Node, required: RequiredPort,
                    provided: ProvidedPort)
    requires scopes == IndexBy(c.scopes, ScopeId) && WellKinded(scopes) && consumer.scope in scopes
    requires forall k :: k in scopes ==> scopes[k].id == k
    ensures LinkError(consumer, provider, required, provided, scopes).None?
      <==> Links(c, consumer, provider, required, provided)
  {
    VisibleIs(c, scopes, consumer, provider, provided);
  }

  lemma BindingErrorIs(c: Composition, scopes: ScopeMap, nodes: NodeMap, service: Id, i: nat)
    requires Treed(c, scopes, nodes, service) && i < |c.bindings|
    requires forall n :: n in c.nodes ==> UniquePorts(n) && n.scope in scopes
    ensures BindingError(c.bindings, i, scopes, nodes).None?
      <==> !EdgeAmong(c.bindings[..i], c.bindings[i]) && BindingFits(c, c.bindings[i])
  {
    var b := c.bindings[i];
    BindingFitsFound(c, nodes, b);
    if EndsExist(b, nodes) {
      var consumer, provider := nodes[b.consumer.node], nodes[b.provider.node];
      assert consumer in c.nodes;
      LinkErrorIs(c, scopes, consumer, provider, FindRequired(consumer.required, b.consumer.port).value,
                  FindProvided(provider.provided, b.provider.port).value);
    }
  }

  lemma {:induction false} BindingsErrorNone(bs: seq<Binding>, i: nat, scopes: ScopeMap, nodes: NodeMap)
    ensures BindingsError(bs, i, scopes, nodes).None?
      <==> forall k :: i <= k < |bs| ==> BindingError(bs, k, scopes, nodes).None?
    decreases |bs| - i
  {
    if i < |bs| && BindingError(bs, i, scopes, nodes).None? {
      BindingsErrorNone(bs, i + 1, scopes, nodes);
    }
  }

  lemma EdgesDistinct(bs: seq<Binding>)
    ensures DistinctEdges(bs) <==> forall i :: 0 <= i < |bs| ==> !EdgeAmong(bs[..i], bs[i])
  {
    if DistinctEdges(bs) {
      forall i | 0 <= i < |bs| ensures !EdgeAmong(bs[..i], bs[i]) {
        forall j | 0 <= j < i ensures EdgeOf(bs[..i][j]) != EdgeOf(bs[i]) {
          assert bs[..i][j] == bs[j];
        }
      }
    }
    if forall i :: 0 <= i < |bs| ==> !EdgeAmong(bs[..i], bs[i]) {
      forall i, j | 0 <= i < j < |bs| ensures EdgeOf(bs[i]) != EdgeOf(bs[j]) {
        assert !EdgeAmong(bs[..j], bs[j]);
        assert bs[..j][i] == bs[i];
      }
    }
  }

  lemma BindingsErrorIs(c: Composition, scopes: ScopeMap, nodes: NodeMap, service: Id)
    requires Treed(c, scopes, nodes, service)
    requires forall n :: n in c.nodes ==> UniquePorts(n) && n.scope in scopes
    ensures BindingsError(c.bindings, 0, scopes, nodes).None?
      <==> BindingsFit(c)
  {
    BindingsErrorNone(c.bindings, 0, scopes, nodes);
    forall i: nat | i < |c.bindings|
      ensures BindingError(c.bindings, i, scopes, nodes).None? <==> NewAndFits(c, i)
    {
      BindingErrorIs(c, scopes, nodes, service, i);
    }
    AllNewAndFit(c);
  }

  ghost predicate NewAndFits(c: Composition, i: nat)
    requires i < |c.bindings|
  {
    !EdgeAmong(c.bindings[..i], c.bindings[i]) && BindingFits(c, c.bindings[i])
  }

  lemma AllNewAndFit(c: Composition)
    ensures BindingsFit(c) <==> forall i: nat :: i < |c.bindings| ==> NewAndFits(c, i)
  {
    EdgesDistinct(c.bindings);
    if BindingsFit(c) {
      forall i: nat | i < |c.bindings| ensures NewAndFits(c, i) {
        assert !EdgeAmong(c.bindings[..i], c.bindings[i]);
      }
    }
    if forall i: nat :: i < |c.bindings| ==> NewAndFits(c, i) {
      forall i | 0 <= i < |c.bindings| ensures !EdgeAmong(c.bindings[..i], c.bindings[i]) {
        assert NewAndFits(c, i);
      }
      forall b | b in c.bindings ensures BindingFits(c, b) {
        var i: nat :| i < |c.bindings| && c.bindings[i] == b;
        assert NewAndFits(c, i);
      }
    }
  }

  /* Cardinality. */

  /** Counting bindings counts providers, since no edge repeats. */
  lemma {:induction false} CountsFeeds(bs: seq<Binding>, e: Endpoint)
    requires DistinctEdges(bs)
    ensures CountOf(bs, e) == |Feeds(bs, e)|
  {
    if bs != [] {
      var init, last := bs[..|bs| - 1], bs[|bs| - 1];
      assert bs == init + [last];
      assert forall i :: 0 <= i < |init| ==> init[i] == bs[i];
      CountsFeeds(init, e);
      if last.consumer == e {
        forall b | b in init && b.consumer == e ensures b.provider != last.provider {
          var i :| 0 <= i < |init| && init[i] == b;
          assert EdgeOf(bs[i]) != EdgeOf(bs[|bs| - 1]);
        }
        assert Feeds(bs, e) == Feeds(init, e) + {last.provider};
      } else {
        assert Feeds(bs, e) == Feeds(init, e);
      }
    }
  }

  lemma FedIs(c: Composition)
    requires DistinctEdges(c.bindings)
    ensures AllFed(c.nodes, c.bindings) <==> PortsFed(c)
  {
    forall n, p | n in c.nodes && p in n.required
      ensures PortFed(n, p, c.bindings) <==> Fed(c, n, p)
    {
      CountsFeeds(c.bindings, Endpoint(n.id, p.id));
    }
    if PortsFed(c) {
      forall n | n in c.nodes ensures NodeFed(n, c.bindings) {
        forall p | p in n.required ensures PortFed(n, p, c.bindings) {
          assert Fed(c, n, p);
        }
      }
    }
    if AllFed(c.nodes, c.bindings) {
      forall n, p | n in c.nodes && p in n.required ensures Fed(c, n, p) {
        assert NodeFed(n, c.bindings) && PortFed(n, p, c.bindings);
      }
    }
  }

  /* Dependencies. */

  lemma {:induction false} OwnersHold(ns: seq<Node>)
    requires UniqueBy(ns, NodeId)
    ensures forall id :: id in OwnersOf(ns) <==> exists n :: n in ns && n.id == id
    ensures forall n :: n in ns ==> n.id in OwnersOf(ns) && OwnersOf(ns)[n.id] == OwnerDeps(n)
  {
    if ns != [] {
      var init, last := ns[..|ns| - 1], ns[|ns| - 1];
      assert ns == init + [last];
      UniqueSnoc(init, last, NodeId);
      OwnersHold(init);
      forall n | n in init ensures n.id != last.id {
        var i :| 0 <= i < |init| && init[i] == n;
        assert NodeId(init[i]) != NodeId(last);
      }
    }
  }

  lemma {:induction false} ProvidersHold(deps: Deps, bs: seq<Binding>, id: Str)
    requires id in deps
    ensures id in AddProviders(deps, bs)
    ensures AddProviders(deps, bs)[id] == deps[id] + set b | b in bs && b.consumer.node == id :: b.provider.node
  {
    if bs != [] {
      var init, last := bs[..|bs| - 1], bs[|bs| - 1];
      assert bs == init + [last];
      ProvidersHold(deps, init, id);
      AddProvidersKeys(deps, init);
    }
  }

  lemma DependencyIs(c: Composition, n: Node, d: Str)
    requires UniqueBy(c.nodes, NodeId) && n in c.nodes
    ensures DependsOn(c, n.id, d)
      <==> d in OwnerDeps(n) + set b | b in c.bindings && b.consumer.node == n.id :: b.provider.node
  {
    forall m | m in c.nodes && m.id == n.id ensures m == n {
      PortFound(c.nodes, NodeId, m, n);
    }
  }

  /** What the linker collects is what nodes wait for. */
  lemma DependenciesAre(c: Composition)
    requires UniqueBy(c.nodes, NodeId)
    requires (forall n :: n in c.nodes ==> OwnerKnown(c, n)) && BindingsFit(c)
    ensures AddProviders(OwnersOf(c.nodes), c.bindings) == Dependencies(c)
    ensures Closed(Dependencies(c))
  {
    var deps := AddProviders(OwnersOf(c.nodes), c.bindings);
    OwnersHold(c.nodes);
    AddProvidersKeys(OwnersOf(c.nodes), c.bindings);
    forall id | id in deps ensures id in NodeIds(c) && deps[id] == Dependencies(c)[id] {
      var n :| n in c.nodes && n.id == id;
      DependenciesOf(c, n);
    }
  }

  lemma DependenciesOf(c: Composition, n: Node)
    requires UniqueBy(c.nodes, NodeId) && n in c.nodes
    requires (forall m :: m in c.nodes ==> OwnerKnown(c, m)) && BindingsFit(c)
    ensures
      var deps := AddProviders(OwnersOf(c.nodes), c.bindings);
      n.id in deps && deps[n.id] == Dependencies(c)[n.id]
  {
    var deps := AddProviders(OwnersOf(c.nodes), c.bindings);
    OwnersHold(c.nodes);
    ProvidersHold(OwnersOf(c.nodes), c.bindings, n.id);
    AddProvidersKeys(OwnersOf(c.nodes), c.bindings);
    forall d ensures d in deps[n.id] <==> d in NodeIds(c) && DependsOn(c, n.id, d) {
      DependencyIs(c, n, d);
      if d in deps[n.id] {
        DependencyKnown(c, n.id, d);
      }
    }
  }

  lemma DependencyKnown(c: Composition, id: Str, d: Str)
    requires (forall n :: n in c.nodes ==> OwnerKnown(c, n)) && BindingsFit(c)
    requires DependsOn(c, id, d)
    ensures d in NodeIds(c)
  {
    if n :| n in c.nodes && n.id == id && n.owner.NodeOwner? && n.owner.node == d {
      assert OwnerKnown(c, n);
    } else {
      var b :| b in c.bindings && b.consumer.node == id && b.provider.node == d;
      assert BindingFits(c, b);
    }
  }

  /* The theorem, for a sorted proposal. */

  lemma IdsSorted(ns: seq<Node>)
    requires Sorted(ns, CompareNodes)
    ensures Sorted(Ids(ns), Compare)
  {
    forall i, j | 0 <= i < j < |ns| ensures Compare(Ids(ns)[i], Ids(ns)[j]) <= 0 {
      assert CompareNodes(ns[i], ns[j]) <= 0;
    }
  }

  lemma TreedBy(c: Composition, scopes: ScopeMap, nodes: NodeMap, service: Id)
    requires UniqueBy(c.scopes, ScopeId) && ScopeTree(c.scopes) && ServiceKnown(c, service)
    requires UniqueBy(c.nodes, NodeId)
    requires scopes == IndexBy(c.scopes, ScopeId) && nodes == IndexBy(c.nodes, NodeId)
    ensures Treed(c, scopes, nodes, service)
  {
    IndexByIndexes(c.scopes, ScopeId);
    IndexByIndexes(c.nodes, NodeId);
    PlacedWellKinded(c.scopes, scopes);
  }

  lemma NodesFitKnow(c: Composition, scopes: ScopeMap, nodes: NodeMap, service: Id)
    requires Treed(c, scopes, nodes, service) && NodesFit(c)
    ensures forall n :: n in c.nodes ==> UniquePorts(n) && n.scope in scopes && OwnerKnown(c, n)
  {
    forall n | n in c.nodes ensures UniquePorts(n) && n.scope in scopes && OwnerKnown(c, n) {
      assert NodeFits(c, n);
      ScopeIs(c, scopes, n.scope);
    }
  }

  /** The order of an accepted proposal is the least topological order of what nodes wait for. */
  ghost predicate BestOrder(c: Composition, order: seq<Str>) {
    && Topological(order, Dependencies(c)) && IsLeast(order, Dependencies(c))
    && BeforePrerequisites(Reverse(order), Dependencies(c))
  }

  lemma OrderIs(c: Composition)
    requires Sorted(c.nodes, CompareNodes) && UniqueBy(c.nodes, NodeId)
    requires (forall n :: n in c.nodes ==> OwnerKnown(c, n)) && BindingsFit(c)
    ensures AddProviders(OwnersOf(c.nodes), c.bindings) == Dependencies(c)
    ensures Greedy(Ids(c.nodes), Dependencies(c), {}).Some? <==> Acyclic(Dependencies(c))
    ensures
      var order := Greedy(Ids(c.nodes), Dependencies(c), {});
      order.Some? ==> BestOrder(c, order.value)
  {
    DependenciesAre(c);
    IdsOf(c.nodes, IndexBy(c.nodes, NodeId));
    IdsSorted(c.nodes);
    OwnersKeys(c.nodes);
    AddProvidersKeys(OwnersOf(c.nodes), c.bindings);
    OrderCorrect(Ids(c.nodes), Dependencies(c));
    var order := Greedy(Ids(c.nodes), Dependencies(c), {});
    if order.Some? {
      ReverseTearsDown(order.value, Dependencies(c));
    }
  }

  /** With the scopes a tree and node names unique, the remaining phases decide the rest. */
  lemma PhasesIff(c: Composition, fingerprint: Str, scopes: ScopeMap, nodes: NodeMap, service: Id)
    requires Treed(c, scopes, nodes, service) && Sorted(c.nodes, CompareNodes)
    ensures NodesOutcome(c, fingerprint, service).Ok?
      <==> NodesFit(c) && BindingsFit(c) && PortsFed(c) && Acyclic(Dependencies(c))
  {
    NodesErrorIs(c, scopes, nodes, service);
    if NodesFit(c) {
      NodesFitKnow(c, scopes, nodes, service);
      BindingsErrorIs(c, scopes, nodes, service);
      if BindingsFit(c) {
        FedIs(c);
        OrderIs(c);
      }
    }
  }

  lemma OutcomeIff(c: Composition, fingerprint: Str)
    requires Sorted(c.nodes, CompareNodes)
    ensures Outcome(c, fingerprint).Ok? <==> Linkable(c)
  {
    if UniqueBy(c.scopes, ScopeId) {
      var scopes, nodes := IndexBy(c.scopes, ScopeId), IndexBy(c.nodes, NodeId);
      ScopesOutcomeIff(c.scopes);
      var service := ScopesOutcome(c.scopes, scopes);
      if service.Ok? && UniqueBy(c.nodes, NodeId) {
        TreedBy(c, scopes, nodes, service.value);
        PhasesIff(c, fingerprint, scopes, nodes, service.value);
      }
    }
  }

  /** What the report of an accepted proposal says. */
  ghost predicate Reports(c: Composition, fingerprint: Str, s: Structure) {
    && BestOrder(c, s.dependencyOrder) && s.reverseDependencyOrder == Reverse(s.dependencyOrder)
    && Greedy(Ids(c.nodes), Dependencies(c), {}) == Some(s.dependencyOrder)
    && s.preimage == Preimage(fingerprint, c)
    && s.sites == Sort(Projections(s.dependencyOrder, IndexBy(c.nodes, NodeId)), CompareSiteNodes)
    && s.remoteBindings == RemoteOf(c.bindings, IndexBy(c.nodes, NodeId))
  }

  lemma OutcomeReports(c: Composition, fingerprint: Str, s: Structure)
    requires Sorted(c.nodes, CompareNodes) && Outcome(c, fingerprint) == Ok(s)
    ensures Reports(c, fingerprint, s)
  {
    OutcomeIff(c, fingerprint);
    forall n | n in c.nodes ensures OwnerKnown(c, n) {
      assert NodeFits(c, n);
    }
    OrderIs(c);
    AcceptedLinked(c, fingerprint, s);
  }

  lemma AcceptedLinked(c: Composition, fingerprint: Str, s: Structure)
    requires Outcome(c, fingerprint) == Ok(s)
    ensures Linked(c, fingerprint, IndexBy(c.nodes, NodeId)) == Ok(s)
  {
  }
}
