/** `checkComposition`: the loops over string-keyed maps, each proved against its phase's outcome. */
module Linker {
  import opened Strings
  import opened Orders
  import opened Results
  import opened Composition
  import opened Wire
  import opened Graph
  import opened Scopes
  import opened Proposal
  import opened LinkSpec

  /* Nodes. */

  /** The map from installation slots to releases, as strings. */
  ghost function GenerationsOf(ns: seq<Node>): map<Str, Str> {
    if ns == [] then map[]
    else
      var before := GenerationsOf(ns[..|ns| - 1]);
      var identity := ns[|ns| - 1].identity;
      if identity.Core? then before
      else before[SlotKey(ns[|ns| - 1].site, identity.release.pluginId, identity.generation) :=
        ReleaseKey(identity.release)]
  }

  ghost predicate OneReleasePerSlot(ns: seq<Node>) {
    forall i, j :: 0 <= i < |ns| && 0 <= j < |ns| && SameSlot(ns[i], ns[j]) ==>
      ns[i].identity.release == ns[j].identity.release
  }

  function SlotOf(n: Node): Str
    requires n.identity.Plugin?
  {
    SlotKey(n.site, n.identity.release.pluginId, n.identity.generation)
  }

  lemma SameSlotKeys(m: Node, n: Node)
    requires m.identity.Plugin? && n.identity.Plugin?
    ensures SlotOf(m) == SlotOf(n) <==> SameSlot(m, n)
  {
    SlotKeys(m.site, m.identity.release.pluginId, m.identity.generation,
             n.site, n.identity.release.pluginId, n.identity.generation);
  }

  /** While slots agree, the map holds for each slot the release of its nodes. */
  lemma {:induction false} GenerationsHold(ns: seq<Node>, n: Node)
    requires n.identity.Plugin? && OneReleasePerSlot(ns)
    ensures SlotOf(n) in GenerationsOf(ns) <==> exists j :: 0 <= j < |ns| && SameSlot(ns[j], n)
    ensures forall j :: 0 <= j < |ns| && SameSlot(ns[j], n) ==>
      SlotOf(n) in GenerationsOf(ns) && GenerationsOf(ns)[SlotOf(n)] == ReleaseKey(ns[j].identity.release)
  {
    if ns != [] {
      var init, last := ns[..|ns| - 1], ns[|ns| - 1];
      assert forall j :: 0 <= j < |init| ==> init[j] == ns[j];
      GenerationsHold(init, n);
      if last.identity.Plugin? {
        SameSlotKeys(last, n);
        if SameSlot(last, n) {
          forall j | 0 <= j < |ns| && SameSlot(ns[j], n)
            ensures ns[j].identity.release == last.identity.release
          {
            assert SameSlot(ns[j], ns[|ns| - 1]);
          }
        }
      }
    }
  }

  lemma AgreeingSnoc(before: seq<Node>, n: Node)
    requires OneReleasePerSlot(before) && !Conflicts(before, n)
    ensures OneReleasePerSlot(before + [n])
  {
    var ns := before + [n];
    forall i, j | 0 <= i < |ns| && 0 <= j < |ns| && SameSlot(ns[i], ns[j])
      ensures ns[i].identity.release == ns[j].identity.release
    {
      assert SameSlot(ns[j], ns[i]);
      if i < |before| && j < |before| {
        assert SameSlot(before[i], before[j]);
      } else if i < |before| {
        assert SameSlot(before[i], n);
      } else if j < |before| {
        assert SameSlot(before[j], n);
      }
    }
  }

  method CheckGeneration(n: Node, generations: map<Str, Str>, ghost before: seq<Node>)
    returns (r: Option<map<Str, Str>>)
    requires generations == GenerationsOf(before) && OneReleasePerSlot(before)
    ensures r.None? <==> Conflicts(before, n)
    ensures r.Some? ==> r.value == GenerationsOf(before + [n]) && OneReleasePerSlot(before + [n])
  {
    assert (before + [n])[..|before|] == before;
    if n.identity.Core? {
      AgreeingSnoc(before, n);
      return Some(generations);
    }
    var slot := SlotOf(n);
    var exact := ReleaseKey(n.identity.release);
    GenerationsHold(before, n);
    forall j | 0 <= j < |before| && before[j].identity.Plugin?
      ensures ReleaseKey(before[j].identity.release) == exact <==> before[j].identity.release == n.identity.release
    {
      ReleaseKeys(before[j].identity.release, n.identity.release);
    }
    if slot in generations && generations[slot] != exact {
      return None;
    }
    AgreeingSnoc(before, n);
    return Some(generations[slot := exact]);
  }

  /** The checks of one node that look at its scope, its site and its owner. */
  method CheckPlacement(n: Node, chain: seq<Scope>, service: Id) returns (r: Option<Code>)
    ensures r ==
      if n.site.serviceId != service || Misplaced(n.site, chain) then Some(InvalidPlacement)
      else if n.identity.Plugin? && n.identity.execution.Isolated? && n.site.ServiceSite? then Some(ServiceExecutable)
      else None
  {
    if n.site.serviceId != service {
      return Some(InvalidPlacement);
    }
    var machine := FindMachine(chain);
    if machine.Some? && (!n.site.MachineSite? || n.site.machineId != machine.value) {
      return Some(InvalidPlacement);
    }
    if n.identity.Plugin? && n.identity.execution == Isolated && n.site.ServiceSite? {
      return Some(ServiceExecutable);
    }
    return None;
  }

  method CheckOwner(n: Node, chain: seq<Scope>, nodes: NodeMap) returns (prerequisites: Option<set<Str>>)
    ensures prerequisites == if OwnerFits(n, chain, nodes) then Some(OwnerDeps(n)) else None
  {
    if n.owner.ScopeOwner? {
      return Some({});
    }
    if n.owner.node !in nodes {
      return None;
    }
    var owner := nodes[n.owner.node];
    SitesFlip(owner.site, n.site);
    if owner.id == n.id || CompareSites(owner.site, n.site) != 0 || !Visits(chain, owner.scope) {
      return None;
    }
    return Some({n.owner.node});
  }

  method LinkNodes(ns: seq<Node>, scopes: ScopeMap, nodes: NodeMap, service: Id) returns (r: Result<Deps, Code>)
    ensures
      var error := NodesError(ns, 0, scopes, nodes, service);
      r == if error.Some? then Err(error.value) else Ok(OwnersOf(ns))
  {
    var dependencies: Deps := map[];
    var generations: map<Str, Str> := map[];
    var ports := 0;
    for i := 0 to |ns|
      invariant NodesError(ns, 0, scopes, nodes, service) == NodesError(ns, i, scopes, nodes, service)
      invariant generations == GenerationsOf(ns[..i]) && OneReleasePerSlot(ns[..i])
      invariant dependencies == OwnersOf(ns[..i])
      invariant ports == PortTotal(ns[..i])
    {
      var n := ns[i];
      assert ns[..i + 1] == ns[..i] + [n];
      assert ns[..i + 1][..i] == ns[..i];
      var chain := Ancestry(n.scope, scopes);
      if chain.Err? {
        return Err(chain.error);
      }
      var misplaced := CheckPlacement(n, chain.value, service);
      if misplaced.Some? {
        return Err(misplaced.value);
      }
      var next := CheckGeneration(n, generations, ns[..i]);
      if next.None? {
        return Err(GenerationConflict);
      }
      generations := next.value;
      var prerequisites := CheckOwner(n, chain.value, nodes);
      if prerequisites.None? {
        return Err(InvalidOwner);
      }
      dependencies := dependencies[n.id := prerequisites.value];
      var unique := CheckPorts(n);
      if !unique {
        return Err(DuplicatePort);
      }
      ports := ports + |n.provided| + |n.required|;
      if ports > PORT_BUDGET {
        return Err(PortBudget);
      }
    }
    assert ns[..|ns|] == ns;
    return Ok(dependencies);
  }

  /** A set of identifiers is as large as the list exactly when none repeats. */
  method CheckPorts(n: Node) returns (unique: bool)
    ensures unique <==> UniquePorts(n)
  {
    IndexBySize(n.provided, ProvidedId);
    IndexBySize(n.required, RequiredId);
    return |IndexBy(n.provided, ProvidedId)| == |n.provided| && |IndexBy(n.required, RequiredId)| == |n.required|;
  }

  /* Bindings. */

  ghost function EdgesOf(bs: seq<Binding>): set<Str> {
    set j | 0 <= j < |bs| :: EdgeKey(bs[j].consumer, bs[j].provider)
  }

  lemma EdgesAmong(bs: seq<Binding>, b: Binding)
    ensures EdgeKey(b.consumer, b.provider) in EdgesOf(bs) <==> EdgeAmong(bs, b)
  {
    forall j | 0 <= j < |bs|
      ensures EdgeKey(bs[j].consumer, bs[j].provider) == EdgeKey(b.consumer, b.provider)
        <==> bs[j].consumer == b.consumer && bs[j].provider == b.provider
    {
      EdgeKeys(bs[j].consumer, bs[j].provider, b.consumer, b.provider);
    }
    if EdgeAmong(bs, b) {
      var j :| 0 <= j < |bs| && bs[j].consumer == b.consumer && bs[j].provider == b.provider;
      assert EdgeKey(bs[j].consumer, bs[j].provider) in EdgesOf(bs);
    }
  }

  lemma EdgesSnoc(bs: seq<Binding>, i: nat)
    requires i < |bs|
    ensures EdgesOf(bs[..i + 1]) == EdgesOf(bs[..i]) + {EdgeKey(bs[i].consumer, bs[i].provider)}
  {
    var before, after := bs[..i], bs[..i + 1];
    assert forall j :: 0 <= j < i ==> after[j] == before[j];
    forall k | k in EdgesOf(after) ensures k in EdgesOf(before) + {EdgeKey(bs[i].consumer, bs[i].provider)} {
      var j :| 0 <= j < |after| && EdgeKey(after[j].consumer, after[j].provider) == k;
      assert j == i || before[j] == after[j];
    }
    forall k | k in EdgesOf(before) + {EdgeKey(bs[i].consumer, bs[i].provider)} ensures k in EdgesOf(after) {
      if k in EdgesOf(before) {
        var j :| 0 <= j < |before| && EdgeKey(before[j].consumer, before[j].provider) == k;
        assert after[j] == before[j];
      } else {
        assert after[i] == bs[i];
      }
    }
  }

  method CheckBinding(b: Binding, scopes: ScopeMap, nodes: NodeMap) returns (r: Result<bool, Code>)
    ensures
      if b.consumer.node !in nodes || b.provider.node !in nodes then r == Err(InvalidEndpoint)
      else
        var consumer, provider := nodes[b.consumer.node], nodes[b.provider.node];
        var required := FindRequired(consumer.required, b.consumer.port);
        var provided := FindProvided(provider.provided, b.provider.port);
        if required.None? || provided.None? then r == Err(InvalidEndpoint)
        else
          var error := LinkError(consumer, provider, required.value, provided.value, scopes);
          r == if error.Some? then Err(error.value) else Ok(CrossesSites(b, nodes))
  {
    if b.consumer.node !in nodes || b.provider.node !in nodes {
      return Err(InvalidEndpoint);
    }
    var consumer, provider := nodes[b.consumer.node], nodes[b.provider.node];
    var required := FindRequired(consumer.required, b.consumer.port);
    if required.None? {
      return Err(InvalidEndpoint);
    }
    var provided := FindProvided(provider.provided, b.provider.port);
    if provided.None? {
      return Err(InvalidEndpoint);
    }
    ContractKeys(required.value.contract, provided.value.contract);
    if ContractKey(required.value.contract) != ContractKey(provided.value.contract) {
      return Err(ContractMismatch);
    }
    var visible := consumer.scope == provider.scope;
    if !visible && provided.value.visibility == Descendants {
      var chain := Ancestry(consumer.scope, scopes);
      if chain.Err? {
        return Err(chain.error);
      }
      visible := Visits(chain.value, provider.scope);
    }
    if !visible {
      return Err(ScopeNotVisible);
    }
    SitesFlip(consumer.site, provider.site);
    if CompareSites(consumer.site, provider.site) != 0 {
      if provided.value.transport == Local {
        return Err(LocalPortCrossesSite);
      }
      return Ok(true);
    }
    return Ok(false);
  }

  /** The counts hold for every port key, absent ones for zero. */
  ghost predicate Counts(counts: map<Str, nat>, bs: seq<Binding>) {
    forall e: Endpoint :: CountOf(bs, e) == if PortKey(e) in counts then counts[PortKey(e)] else 0
  }

  lemma CountsSnoc(counts: map<Str, nat>, bs: seq<Binding>, b: Binding)
    requires Counts(counts, bs)
    ensures
      var key := PortKey(b.consumer);
      Counts(counts[key := (if key in counts then counts[key] else 0) + 1], bs + [b])
  {
    assert (bs + [b])[..|bs|] == bs;
    var key := PortKey(b.consumer);
    var next := counts[key := (if key in counts then counts[key] else 0) + 1];
    forall e: Endpoint ensures CountOf(bs + [b], e) == if PortKey(e) in next then next[PortKey(e)] else 0 {
      PortKeys(e, b.consumer);
      assert CountOf(bs, e) == if PortKey(e) in counts then counts[PortKey(e)] else 0;
    }
  }

  datatype Bound = Bound(dependencies: Deps, counts: map<Str, nat>, remote: seq<Binding>)

  /** What the maps of the loop hold once `bs` are linked. */
  ghost predicate BoundBy(bound: Bound, owners: Deps, bs: seq<Binding>, nodes: NodeMap) {
    && bound.dependencies == AddProviders(owners, bs)
    && bound.remote == RemoteOf(bs, nodes)
    && Counts(bound.counts, bs)
  }

  method AddBinding(b: Binding, crosses: bool, bound: Bound, ghost owners: Deps, ghost bs: seq<Binding>,
                    ghost nodes: NodeMap)
    returns (r: Bound)
    requires BoundBy(bound, owners, bs, nodes) && b.consumer.node in bound.dependencies
    requires crosses == CrossesSites(b, nodes)
    ensures BoundBy(r, owners, bs + [b], nodes) && r.dependencies.Keys == bound.dependencies.Keys
  {
    assert (bs + [b])[..|bs|] == bs;
    var port := PortKey(b.consumer);
    var counts := bound.counts;
    CountsSnoc(counts, bs, b);
    counts := counts[port := (if port in counts then counts[port] else 0) + 1];
    var dependencies := bound.dependencies[b.consumer.node := bound.dependencies[b.consumer.node] + {b.provider.node}];
    r := Bound(dependencies, counts, if crosses then bound.remote + [b] else bound.remote);
  }

  method LinkBindings(bs: seq<Binding>, scopes: ScopeMap, nodes: NodeMap, owners: Deps)
    returns (r: Result<Bound, Code>)
    requires owners.Keys == nodes.Keys
    ensures
      var error := BindingsError(bs, 0, scopes, nodes);
      if error.Some? then r == Err(error.value)
      else (r.Ok? && BoundBy(r.value, owners, bs, nodes))
  {
    var seen: set<Str> := {};
    var bound := Bound(owners, map[], []);
    for i := 0 to |bs|
      invariant BindingsError(bs, 0, scopes, nodes) == BindingsError(bs, i, scopes, nodes)
      invariant seen == EdgesOf(bs[..i])
      invariant BoundBy(bound, owners, bs[..i], nodes) && bound.dependencies.Keys == nodes.Keys
    {
      var b := bs[i];
      var edge := EdgeKey(b.consumer, b.provider);
      EdgesAmong(bs[..i], b);
      if edge in seen {
        return Err(DuplicateBinding);
      }
      EdgesSnoc(bs, i);
      seen := seen + {edge};
      var crosses := CheckBinding(b, scopes, nodes);
      if crosses.Err? {
        return Err(crosses.error);
      }
      assert bs[..i + 1] == bs[..i] + [b];
      bound := AddBinding(b, crosses.value, bound, owners, bs[..i], nodes);
    }
    assert bs[..|bs|] == bs;
    return Ok(bound);
  }

  /* Cardinality. */

  method CheckCardinalities(ns: seq<Node>, counts: map<Str, nat>, ghost bs: seq<Binding>) returns (fed: bool)
    requires Counts(counts, bs)
    ensures fed <==> AllFed(ns, bs)
  {
    for i := 0 to |ns|
      invariant forall k :: 0 <= k < i ==> NodeFed(ns[k], bs)
    {
      var n := ns[i];
      for j := 0 to |n.required|
        invariant forall k :: 0 <= k < j ==> PortFed(n, n.required[k], bs)
      {
        var required := n.required[j];
        var key := PortKey(Endpoint(n.id, required.id));
        var count := if key in counts then counts[key] else 0;
        assert count == CountOf(bs, Endpoint(n.id, required.id));
        if (required.cardinality == One && count != 1) || (required.cardinality == Optional && count > 1) {
          assert !PortFed(n, required, bs) && required in n.required;
          assert !NodeFed(n, bs) && n in ns;
          return false;
        }
      }
    }
    return true;
  }

  /* Projection. */

  /** The insertion-ordered map from site keys to the nodes seen there. */
  ghost predicate Projected(keys: seq<Str>, sites: map<Str, SiteNodes>, order: seq<Str>, nodes: NodeMap) {
    var seen := SitesSeen(order, nodes);
    && |keys| == |seen|
    && (forall k :: 0 <= k < |keys| ==> keys[k] == SiteKey(seen[k]))
    && (forall k :: 0 <= k < |keys| ==> keys[k] in sites)
    && (forall k :: 0 <= k < |keys| ==> sites[keys[k]] == SiteNodes(seen[k], AtSite(order, nodes, seen[k])))
    && (forall key :: key in sites ==> key in keys)
  }

  lemma {:induction false} SitesSeenDistinct(order: seq<Str>, nodes: NodeMap)
    ensures forall i, j :: 0 <= i < j < |SitesSeen(order, nodes)| ==>
      SitesSeen(order, nodes)[i] != SitesSeen(order, nodes)[j]
  {
    if order != [] {
      SitesSeenDistinct(order[..|order| - 1], nodes);
    }
  }

  lemma {:induction false} UnseenSiteEmpty(order: seq<Str>, nodes: NodeMap, site: Site)
    requires site !in SitesSeen(order, nodes)
    ensures AtSite(order, nodes, site) == []
  {
    if order != [] {
      UnseenSiteEmpty(order[..|order| - 1], nodes, site);
    }
  }

  method AddToSite(keys: seq<Str>, sites: map<Str, SiteNodes>, id: Str, nodes: NodeMap, ghost order: seq<Str>)
    returns (keys': seq<Str>, sites': map<Str, SiteNodes>)
    requires Projected(keys, sites, order, nodes) && id in nodes
    ensures Projected(keys', sites', order + [id], nodes)
  {
    var site := nodes[id].site;
    var key := SiteKey(site);
    ghost var seen := SitesSeen(order, nodes);
    assert (order + [id])[..|order|] == order;
    forall k | 0 <= k < |keys| ensures keys[k] == key <==> seen[k] == site {
      SiteKeys(seen[k], site);
    }
    SitesSeenDistinct(order, nodes);
    if key in sites {
      ghost var k :| 0 <= k < |keys| && keys[k] == key;
      keys' := keys;
      sites' := sites[key := sites[key].(nodes := sites[key].nodes + [id])];
    } else {
      UnseenSiteEmpty(order, nodes, site);
      keys' := keys + [key];
      sites' := sites[key := SiteNodes(site, [id])];
    }
  }

  method ProjectSites(order: seq<Str>, nodes: NodeMap) returns (r: seq<SiteNodes>)
    requires forall id :: id in order ==> id in nodes
    ensures r == Sort(Projections(order, nodes), CompareSiteNodes)
  {
    var keys: seq<Str> := [];
    var sites: map<Str, SiteNodes> := map[];
    for i := 0 to |order|
      invariant Projected(keys, sites, order[..i], nodes)
    {
      assert order[i] in order;
      keys, sites := AddToSite(keys, sites, order[i], nodes, order[..i]);
      assert order[..i] + [order[i]] == order[..i + 1];
    }
    assert order[..|order|] == order;
    var values := seq(|keys|, k requires 0 <= k < |keys| => sites[keys[k]]);
    assert values == Projections(order, nodes);
    return Sort(values, CompareSiteNodes);
  }

  /* The linker. */

  lemma {:induction false} OwnersKeys(ns: seq<Node>)
    ensures OwnersOf(ns).Keys == IndexBy(ns, NodeId).Keys
  {
    if ns != [] {
      OwnersKeys(ns[..|ns| - 1]);
    }
  }

  lemma {:induction false} AddProvidersKeys(deps: Deps, bs: seq<Binding>)
    ensures AddProviders(deps, bs).Keys == deps.Keys
  {
    if bs != [] {
      AddProvidersKeys(deps, bs[..|bs| - 1]);
    }
  }

  lemma IdsOf(ns: seq<Node>, nodes: NodeMap)
    requires UniqueBy(ns, NodeId) && nodes == IndexBy(ns, NodeId)
    ensures Distinct(Ids(ns)) && Members(Ids(ns)) == nodes.Keys
  {
    IndexByIndexes(ns, NodeId);
    forall i, j | 0 <= i < j < |ns| ensures Ids(ns)[i] != Ids(ns)[j] {
      assert NodeId(ns[i]) != NodeId(ns[j]);
    }
    forall id ensures id in Members(Ids(ns)) <==> id in nodes {
      if id in Members(Ids(ns)) {
        var i :| 0 <= i < |ns| && Ids(ns)[i] == id;
        assert ns[i] in ns && NodeId(ns[i]) in nodes;
      }
      if id in nodes {
        var i :| 0 <= i < |ns| && ns[i] == nodes[id];
        assert Ids(ns)[i] == NodeId(ns[i]);
      }
    }
  }

  /** Everything after the scopes are known to be a tree. */
  method LinkProposal(p: Composition, fingerprint: Str, scopes: ScopeMap, service: Id)
    returns (r: Result<Structure, Code>)
    requires scopes == IndexBy(p.scopes, ScopeId)
    ensures r == NodesOutcome(p, fingerprint, service)
  {
    var nodes := IndexBy(p.nodes, NodeId);
    IndexBySize(p.nodes, NodeId);
    if |nodes| != |p.nodes| {
      return Err(DuplicateNode);
    }
    var owners := LinkNodes(p.nodes, scopes, nodes, service);
    if owners.Err? {
      return Err(owners.error);
    }
    OwnersKeys(p.nodes);
    var bound := LinkBindings(p.bindings, scopes, nodes, owners.value);
    if bound.Err? {
      return Err(bound.error);
    }
    var fed := CheckCardinalities(p.nodes, bound.value.counts, p.bindings);
    if !fed {
      return Err(CardinalityMismatch);
    }
    IdsOf(p.nodes, nodes);
    AddProvidersKeys(owners.value, p.bindings);
    var order := DependencyOrder(Ids(p.nodes), bound.value.dependencies);
    if order.None? {
      return Err(DependencyCycle);
    }
    GreedyTopological(Ids(p.nodes), bound.value.dependencies, {});
    forall id | id in order.value ensures id in nodes {
      assert id in Members(order.value);
    }
    var sites := ProjectSites(order.value, nodes);
    return Ok(Structure(
      Preimage(fingerprint, p), order.value, Reverse(order.value), sites, bound.value.remote));
  }

  method CheckComposition(c: Composition, fingerprint: Str) returns (r: Result<Structure, Code>)
    ensures r == Check(c, fingerprint)
  {
    var proposal := Proposed(c);
    var scopes := IndexBy(proposal.scopes, ScopeId);
    IndexBySize(proposal.scopes, ScopeId);
    if |scopes| != |proposal.scopes| {
      return Err(DuplicateScope);
    }
    var service := ValidateScopes(proposal.scopes, scopes);
    if service.Err? {
      return Err(service.error);
    }
    r := LinkProposal(proposal, fingerprint, scopes, service.value);
  }
}
