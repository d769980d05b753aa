/**
 * The outcome of linking a sorted proposal: for each phase, the complaint about
 * the item at an index given the items before it, and the first complaint wins.
 */
module LinkSpec {
  import opened Strings
  import opened Orders
  import opened Results
  import opened Composition
  import opened Wire
  import opened Graph
  import opened Scopes
  import opened Proposal
  import Canonical

  type NodeMap = map<Id, Node>

  const PORT_BUDGET := 2048

  /* Nodes. */

  function FindMachine(chain: seq<Scope>): Option<Id> {
    if chain == [] then None
    else if chain[0].lifetime.Machine? then Some(chain[0].lifetime.machineId)
    else FindMachine(chain[1..])
  }

  /** The node is on another machine than the one its scope belongs to. */
  predicate Misplaced(site: Site, chain: seq<Scope>) {
    var machine := FindMachine(chain);
    machine.Some? && (site.ServiceSite? || site.machineId != machine.value)
  }

  predicate SameSlot(m: Node, n: Node) {
    && m.identity.Plugin? && n.identity.Plugin?
    && m.site == n.site
    && m.identity.release.pluginId == n.identity.release.pluginId
    && m.identity.generation == n.identity.generation
  }

  ghost predicate Conflicts(before: seq<Node>, n: Node) {
    exists j :: 0 <= j < |before| && SameSlot(before[j], n) && before[j].identity.release != n.identity.release
  }

  predicate OwnerFits(n: Node, chain: seq<Scope>, nodes: NodeMap) {
    n.owner.NodeOwner? ==>
      && n.owner.node in nodes
      && var owner := nodes[n.owner.node];
         owner.id != n.id && owner.site == n.site && Visits(chain, owner.scope)
  }

  ghost predicate UniquePorts(n: Node) {
    UniqueBy(n.provided, ProvidedId) && UniqueBy(n.required, RequiredId)
  }

  function PortTotal(ns: seq<Node>): nat {
    if ns == [] then 0
    else
      var last := ns[|ns| - 1];
      PortTotal(ns[..|ns| - 1]) + |last.provided| + |last.required|
  }

  ghost function NodeError(ns: seq<Node>, i: nat, scopes: ScopeMap, nodes: NodeMap, service: Id): Option<Code>
    requires i < |ns|
  {
    var n := ns[i];
    match Chain(Some(n.scope), scopes, [])
    case Err(code) => Some(code)
    case Ok(chain) =>
      if n.site.serviceId != service || Misplaced(n.site, chain) then Some(InvalidPlacement)
      else if n.identity.Plugin? && n.identity.execution.Isolated? && n.site.ServiceSite? then Some(ServiceExecutable)
      else if Conflicts(ns[..i], n) then Some(GenerationConflict)
      else if !OwnerFits(n, chain, nodes) then Some(InvalidOwner)
      else if !UniquePorts(n) then Some(DuplicatePort)
      else if PortTotal(ns[..i + 1]) > PORT_BUDGET then Some(PortBudget)
      else None
  }

  ghost function NodesError(ns: seq<Node>, i: nat, scopes: ScopeMap, nodes: NodeMap, service: Id): Option<Code>
    decreases |ns| - i
  {
    if i >= |ns| then None
    else if NodeError(ns, i, scopes, nodes, service).Some? then NodeError(ns, i, scopes, nodes, service)
    else NodesError(ns, i + 1, scopes, nodes, service)
  }

  function OwnerDeps(n: Node): set<Str> {
    if n.owner.NodeOwner? then {n.owner.node} else {}
  }

  /** Every node with the owner it waits for. */
  function OwnersOf(ns: seq<Node>): Deps {
    if ns == [] then map[]
    else OwnersOf(ns[..|ns| - 1])[ns[|ns| - 1].id := OwnerDeps(ns[|ns| - 1])]
  }

  /* Bindings. */

  function FindProvided(ports: seq<ProvidedPort>, id: Id): (r: Option<ProvidedPort>)
    ensures r.Some? ==> r.value in ports && r.value.id == id
    ensures r.None? ==> forall p :: p in ports ==> p.id != id
  {
    if ports == [] then None
    else if ports[0].id == id then Some(ports[0])
    else FindProvided(ports[1..], id)
  }

  function FindRequired(ports: seq<RequiredPort>, id: Id): (r: Option<RequiredPort>)
    ensures r.Some? ==> r.value in ports && r.value.id == id
    ensures r.None? ==> forall p :: p in ports ==> p.id != id
  {
    if ports == [] then None
    else if ports[0].id == id then Some(ports[0])
    else FindRequired(ports[1..], id)
  }

  ghost predicate EdgeAmong(bs: seq<Binding>, b: Binding) {
    exists j :: 0 <= j < |bs| && bs[j].consumer == b.consumer && bs[j].provider == b.provider
  }

  /** The complaint about a binding between two ports that exist. */
  ghost function LinkError(consumer: Node, provider: Node, required: RequiredPort, provided: ProvidedPort,
                           scopes: ScopeMap)
    : Option<Code>
  {
    if required.contract != provided.contract then Some(ContractMismatch)
    else
      var visible := Visible(consumer, provider, provided, scopes);
      if visible.Err? then Some(visible.error)
      else if !visible.value then Some(ScopeNotVisible)
      else if consumer.site != provider.site && provided.transport.Local? then Some(LocalPortCrossesSite)
      else None
  }

  /** A port is visible in its own scope and, when it says so, in the scopes inside it. */
  function Visible(consumer: Node, provider: Node, provided: ProvidedPort, scopes: ScopeMap): Result<bool, Code> {
    if consumer.scope == provider.scope then Ok(true)
    else if !provided.visibility.Descendants? then Ok(false)
    else
      match Chain(Some(consumer.scope), scopes, [])
      case Err(code) => Err(code)
      case Ok(chain) => Ok(Visits(chain, provider.scope))
  }

  ghost function BindingError(bs: seq<Binding>, i: nat, scopes: ScopeMap, nodes: NodeMap): Option<Code>
    requires i < |bs|
  {
    var b := bs[i];
    if EdgeAmong(bs[..i], b) then Some(DuplicateBinding)
    else if b.consumer.node !in nodes || b.provider.node !in nodes then Some(InvalidEndpoint)
    else
      var consumer, provider := nodes[b.consumer.node], nodes[b.provider.node];
      var required := FindRequired(consumer.required, b.consumer.port);
      var provided := FindProvided(provider.provided, b.provider.port);
      if required.None? || provided.None? then Some(InvalidEndpoint)
      else LinkError(consumer, provider, required.value, provided.value, scopes)
  }

  ghost function BindingsError(bs: seq<Binding>, i: nat, scopes: ScopeMap, nodes: NodeMap): Option<Code>
    decreases |bs| - i
  {
    if i >= |bs| then None
    else if BindingError(bs, i, scopes, nodes).Some? then BindingError(bs, i, scopes, nodes)
    else BindingsError(bs, i + 1, scopes, nodes)
  }

  predicate CrossesSites(b: Binding, nodes: NodeMap) {
    b.consumer.node in nodes && b.provider.node in nodes && nodes[b.consumer.node].site != nodes[b.provider.node].site
  }

  /** The bindings between sites, in order. */
  function RemoteOf(bs: seq<Binding>, nodes: NodeMap): seq<Binding> {
    if bs == [] then []
    else
      var last := bs[|bs| - 1];
      RemoteOf(bs[..|bs| - 1], nodes) + if CrossesSites(last, nodes) then [last] else []
  }

  /** `deps` with every provider added to what its consumer waits for. */
  function AddProviders(deps: Deps, bs: seq<Binding>): Deps {
    if bs == [] then deps
    else
      var last := bs[|bs| - 1];
      var before := AddProviders(deps, bs[..|bs| - 1]);
      if last.consumer.node in before
      then before[last.consumer.node := before[last.consumer.node] + {last.provider.node}]
      else before
  }

  /** How many bindings feed the required port `e`. */
  function CountOf(bs: seq<Binding>, e: Endpoint): nat {
    if bs == [] then 0
    else CountOf(bs[..|bs| - 1], e) + if bs[|bs| - 1].consumer == e then 1 else 0
  }

  /* Cardinality. */

  predicate CountFits(cardinality: Cardinality, count: nat) {
    match cardinality
    case One => count == 1
    case Optional => count <= 1
    case Many => true
  }

  ghost predicate PortFed(n: Node, p: RequiredPort, bs: seq<Binding>) {
    CountFits(p.cardinality, CountOf(bs, Endpoint(n.id, p.id)))
  }

  ghost predicate NodeFed(n: Node, bs: seq<Binding>) {
    forall p :: p in n.required ==> PortFed(n, p, bs)
  }

  ghost predicate AllFed(ns: seq<Node>, bs: seq<Binding>) {
    forall n :: n in ns ==> NodeFed(n, bs)
  }

  /* Projection. */

  datatype SiteNodes = SiteNodes(site: Site, nodes: seq<Str>)

  function CompareSiteNodes(a: SiteNodes, b: SiteNodes): int {
    CompareSites(a.site, b.site)
  }

  /** The nodes of `order` that run at `site`, in order. */
  function AtSite(order: seq<Str>, nodes: NodeMap, site: Site): seq<Str> {
    if order == [] then []
    else
      var last := order[|order| - 1];
      AtSite(order[..|order| - 1], nodes, site) + if last in nodes && nodes[last].site == site then [last] else []
  }

  /** The sites of the nodes of `order`, by first appearance. */
  function SitesSeen(order: seq<Str>, nodes: NodeMap): seq<Site> {
    if order == [] then []
    else
      var before := SitesSeen(order[..|order| - 1], nodes);
      var last := order[|order| - 1];
      if last !in nodes || nodes[last].site in before then before else before + [nodes[last].site]
  }

  function Projections(order: seq<Str>, nodes: NodeMap): seq<SiteNodes> {
    var sites := SitesSeen(order, nodes);
    seq(|sites|, i requires 0 <= i < |sites| => SiteNodes(sites[i], AtSite(order, nodes, sites[i])))
  }

  /* The whole outcome. */

  const PREFIX: Str := [
    0x63, 0x6F, 0x77, 0x62, 0x6F, 0x79, 0x2E, 0x63, 0x6F, 0x6D, 0x70, 0x6F, 0x73, 0x69, 0x74, 0x69, 0x6F, 0x6E,
    0x2E, 0x70, 0x72, 0x6F, 0x70, 0x6F, 0x73, 0x61, 0x6C, 0x2E, 0x76, 0x31, 0x0A] // cowboy.composition.proposal.v1

  /** What the digest is taken of: a versioned prefix, then the canonical proposal. */
  function Preimage(fingerprint: Str, p: Composition): Str {
    PREFIX + fingerprint + [0x0A] + Canonical.Canonical(CompositionJson(p))
  }

  datatype Structure = Structure(
    preimage: Str,
    dependencyOrder: seq<Str>,
    reverseDependencyOrder: seq<Str>,
    sites: seq<SiteNodes>,
    remoteBindings: seq<Binding>)

  function Ids(ns: seq<Node>): (r: seq<Str>)
    ensures |r| == |ns|
    ensures forall i :: 0 <= i < |ns| ==> r[i] == ns[i].id
  {
    seq(|ns|, i requires 0 <= i < |ns| => ns[i].id)
  }

  ghost function Linked(p: Composition, fingerprint: Str, nodes: NodeMap): Result<Structure, Code> {
    var order := Greedy(Ids(p.nodes), AddProviders(OwnersOf(p.nodes), p.bindings), {});
    if order.None? then Err(DependencyCycle)
    else Ok(Structure(
      Preimage(fingerprint, p),
      order.value,
      Reverse(order.value),
      Sort(Projections(order.value, nodes), CompareSiteNodes),
      RemoteOf(p.bindings, nodes)))
  }

  /** The outcome for a proposal whose scopes are a tree under `service`. */
  ghost function NodesOutcome(p: Composition, fingerprint: Str, service: Id): Result<Structure, Code> {
    var scopes := IndexBy(p.scopes, ScopeId);
    var nodes := IndexBy(p.nodes, NodeId);
    if !UniqueBy(p.nodes, NodeId) then Err(DuplicateNode)
    else if NodesError(p.nodes, 0, scopes, nodes, service).Some? then
      Err(NodesError(p.nodes, 0, scopes, nodes, service).value)
    else if BindingsError(p.bindings, 0, scopes, nodes).Some? then
      Err(BindingsError(p.bindings, 0, scopes, nodes).value)
    else if !AllFed(p.nodes, p.bindings) then Err(CardinalityMismatch)
    else Linked(p, fingerprint, nodes)
  }

  ghost function Outcome(p: Composition, fingerprint: Str): Result<Structure, Code> {
    if !UniqueBy(p.scopes, ScopeId) then Err(DuplicateScope)
    else
      var service := ScopesOutcome(p.scopes, IndexBy(p.scopes, ScopeId));
      if service.Err? then Err(service.error) else NodesOutcome(p, fingerprint, service.value)
  }

  /** The outcome of `checkComposition` on a decoded composition. */
  ghost function Check(c: Composition, fingerprint: Str): Result<Structure, Code> {
    Outcome(Proposed(c), fingerprint)
  }
}
