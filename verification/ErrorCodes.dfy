/**
 * What each error code says of the composition: the first thing wrong with it,
 * in the order of the checks, said without the functions that compute the code.
 */
module ErrorCodes {
  import opened Strings
  import opened Orders
  import opened Results
  import opened Composition
  import opened Graph
  import opened Scopes
  import opened Proposal
  import opened LinkSpec
  import opened Linking
  import opened Reordering

  /* Scopes. */

  /** Where `k` steps up from `id` lead, known or not. */
  ghost function Reach(scopes: ScopeMap, id: Id, k: nat): Option<Id>
    decreases k
  {
    if k == 0 then Some(id)
    else if id !in scopes then None
    else
      var parent := Parent(scopes[id].lifetime);
      if parent.None? then None else Reach(scopes, parent.value, k - 1)
  }

  /** The walk up from `id` meets a scope that does not exist within `steps` steps. */
  ghost predicate Lost(scopes: ScopeMap, id: Id, steps: int) {
    exists k: nat :: k <= steps && Reach(scopes, id, k).Some? && Reach(scopes, id, k).value !in scopes
  }

  ghost predicate AtService(scopes: ScopeMap, at: Option<Id>) {
    at.Some? && at.value in scopes && scopes[at.value].lifetime.Service?
  }

  /** The walk up from `id` meets a service before `steps` steps. */
  ghost predicate Rooted(scopes: ScopeMap, id: Id, steps: int) {
    exists k: nat :: k < steps && AtService(scopes, Reach(scopes, id, k))
  }

  /** The most scopes a walk may visit. */
  const MAX_STEPS := 32

  /** The scope is of a kind that may be where it is: the only service so far, or in a scope that may contain it. */
  ghost predicate RightKind(ss: seq<Scope>, i: nat)
    requires i < |ss|
  {
    if ss[i].lifetime.Service? then forall j :: 0 <= j < i ==> !ss[j].lifetime.Service? else Placed(ss, ss[i])
  }

  ghost predicate ScopeComplaint(ss: seq<Scope>, i: nat, code: Code)
    requires i < |ss|
  {
    var scopes, id, repeated := IndexBy(ss, ScopeId), ss[i].id, LifetimeAmong(ss[..i], ss[i].lifetime);
    match code
    case DuplicateScope => repeated
    case UnknownScope => !repeated && Lost(scopes, id, MAX_STEPS)
    case InvalidScopeTree =>
      !repeated && !Lost(scopes, id, MAX_STEPS) && !(Rooted(scopes, id, MAX_STEPS) && RightKind(ss, i))
    case _ => false
  }

  ghost predicate ScopeFits(ss: seq<Scope>, i: nat)
    requires i < |ss|
  {
    && !LifetimeAmong(ss[..i], ss[i].lifetime)
    && Rooted(IndexBy(ss, ScopeId), ss[i].id, MAX_STEPS) && RightKind(ss, i)
  }

  ghost predicate ScopesFitBefore(ss: seq<Scope>, i: nat)
    requires i <= |ss|
  {
    forall j: nat :: j < i ==> ScopeFits(ss, j)
  }

  ghost predicate ScopesComplain(ss: seq<Scope>, code: Code) {
    || (exists i: nat :: i < |ss| && ScopesFitBefore(ss, i) && ScopeComplaint(ss, i, code))
    || (ScopesFitBefore(ss, |ss|) && (forall s :: s in ss ==> !s.lifetime.Service?) && code == InvalidScopeTree)
  }

  /* Nodes. */

  /** The node is in a scope that exists, and runs where that scope belongs. */
  ghost predicate AtHome(p: Composition, n: Node) {
    ScopeKnown(p, n.scope) && ServiceKnown(p, n.site.serviceId) && OnItsMachine(p, n)
  }

  ghost predicate IsolatedAtService(n: Node) {
    n.identity.Plugin? && n.identity.execution.Isolated? && n.site.ServiceSite?
  }

  /** The node may run where it is, and agrees with the releases before it. */
  ghost predicate MayRun(p: Composition, i: nat)
    requires i < |p.nodes|
  {
    AtHome(p, p.nodes[i]) && !IsolatedAtService(p.nodes[i]) && !Conflicts(p.nodes[..i], p.nodes[i])
  }

  ghost predicate NodeComplaint(p: Composition, i: nat, code: Code)
    requires i < |p.nodes|
  {
    var n := p.nodes[i];
    match code
    case UnknownScope => !ScopeKnown(p, n.scope)
    case InvalidPlacement => ScopeKnown(p, n.scope) && !AtHome(p, n)
    case ServiceExecutable => AtHome(p, n) && IsolatedAtService(n)
    case GenerationConflict => AtHome(p, n) && !IsolatedAtService(n) && Conflicts(p.nodes[..i], n)
    case InvalidOwner => MayRun(p, i) && !OwnerKnown(p, n)
    case DuplicatePort => MayRun(p, i) && OwnerKnown(p, n) && !UniquePorts(n)
    case PortBudget =>
      MayRun(p, i) && OwnerKnown(p, n) && UniquePorts(n) && PortTotal(p.nodes[..i + 1]) > PORT_BUDGET
    case _ => false
  }

  ghost predicate NodesOkBefore(p: Composition, i: nat)
    requires i <= |p.nodes|
  {
    forall j: nat :: j < i ==> NodeOk(p, j)
  }

  ghost predicate NodesComplain(p: Composition, code: Code) {
    exists i: nat :: i < |p.nodes| && NodesOkBefore(p, i) && NodeComplaint(p, i, code)
  }

  /* Bindings. */

  /** The binding's two ends exist and are these. */
  ghost predicate Ends(p: Composition, b: Binding, consumer: Node, provider: Node, required: RequiredPort,
                       provided: ProvidedPort)
  {
    && consumer in p.nodes && consumer.id == b.consumer.node
    && provider in p.nodes && provider.id == b.provider.node
    && required in consumer.required && required.id == b.consumer.port
    && provided in provider.provided && provided.id == b.provider.port
  }

  ghost predicate HasEnds(p: Composition, b: Binding) {
    exists consumer, provider, required, provided :: Ends(p, b, consumer, provider, required, provided)
  }

  ghost predicate Seen(p: Composition, consumer: Node, provider: Node, provided: ProvidedPort) {
    || consumer.scope == provider.scope
    || (provided.visibility.Descendants? && Within(p, consumer.scope, provider.scope))
  }

  ghost predicate EndsComplaint(p: Composition, consumer: Node, provider: Node, required: RequiredPort,
                                provided: ProvidedPort, code: Code)
  {
    match code
    case ContractMismatch => required.contract != provided.contract
    case ScopeNotVisible => required.contract == provided.contract && !Seen(p, consumer, provider, provided)
    case LocalPortCrossesSite =>
      && required.contract == provided.contract && Seen(p, consumer, provider, provided)
      && consumer.site != provider.site && !provided.transport.Remote?
    case _ => false
  }

  /** The ports exist, and `code` says why they may not be bound. */
  ghost predicate LinkComplaint(p: Composition, b: Binding, code: Code) {
    exists consumer, provider, required, provided ::
      && Ends(p, b, consumer, provider, required, provided)
      && EndsComplaint(p, consumer, provider, required, provided, code)
  }

  ghost predicate BindingComplaint(p: Composition, i: nat, code: Code)
    requires i < |p.bindings|
  {
    var b, repeated := p.bindings[i], EdgeAmong(p.bindings[..i], p.bindings[i]);
    match code
    case DuplicateBinding => repeated
    case InvalidEndpoint => !repeated && !HasEnds(p, b)
    case _ => !repeated && LinkComplaint(p, b, code)
  }

  ghost predicate BindingsOkBefore(p: Composition, i: nat)
    requires i <= |p.bindings|
  {
    forall j: nat :: j < i ==> NewAndFits(p, j)
  }

  ghost predicate BindingsComplain(p: Composition, code: Code) {
    exists i: nat :: i < |p.bindings| && BindingsOkBefore(p, i) && BindingComplaint(p, i, code)
  }

  /** `code` names the first thing wrong with the sorted composition `p`. */
  ghost predicate Complains(p: Composition, code: Code) {
    if !UniqueBy(p.scopes, ScopeId) then code == DuplicateScope
    else if !ScopeTree(p.scopes) then ScopesComplain(p.scopes, code)
    else if !UniqueBy(p.nodes, NodeId) then code == DuplicateNode
    else if !NodesFit(p) then NodesComplain(p, code)
    else LaterComplains(p, code)
  }

  /** The nodes fit, and `code` names the first thing wrong after them. */
  ghost predicate LaterComplains(p: Composition, code: Code) {
    if !BindingsFit(p) then BindingsComplain(p, code)
    else if !PortsFed(p) then code == CardinalityMismatch
    else !Acyclic(Dependencies(p)) && code == DependencyCycle
  }

  /* Walks. */

  /** `seen` was walked from bottom to top, and `next` is where the walk goes on. */
  ghost predicate Walked(scopes: ScopeMap, seen: seq<Scope>, next: Id) {
    forall j: nat :: j < |seen| ==> WalkedAt(scopes, seen, next, j)
  }

  ghost predicate WalkedAt(scopes: ScopeMap, seen: seq<Scope>, next: Id, j: nat)
    requires j < |seen|
  {
    && seen[j].id in scopes && scopes[seen[j].id] == seen[j] && !seen[j].lifetime.Service?
    && seen[j].lifetime.parent == if j + 1 < |seen| then seen[j + 1].id else next
  }

  /** A walk that comes back to where it was goes round for ever. */
  lemma {:induction false} RoundForEver(scopes: ScopeMap, seen: seq<Scope>, next: Id, j: nat, k: nat)
    requires Walked(scopes, seen, next) && j < |seen|
    requires exists i :: 0 <= i < |seen| && seen[i].id == next
    ensures exists i :: 0 <= i < |seen| && Reach(scopes, seen[j].id, k) == Some(seen[i].id)
    decreases k
  {
    if k == 0 {
      assert Reach(scopes, seen[j].id, 0) == Some(seen[j].id);
    } else {
      assert WalkedAt(scopes, seen, next, j);
      if j + 1 < |seen| {
        RoundForEver(scopes, seen, next, j + 1, k - 1);
      } else {
        var i :| 0 <= i < |seen| && seen[i].id == next;
        RoundForEver(scopes, seen, next, i, k - 1);
      }
    }
  }

  lemma RoundNowhere(scopes: ScopeMap, seen: seq<Scope>, next: Id, steps: int)
    requires Walked(scopes, seen, next) && next in scopes && scopes[next] in seen && scopes[next].id == next
    ensures !Lost(scopes, next, steps) && !Rooted(scopes, next, steps)
  {
    var j :| 0 <= j < |seen| && seen[j] == scopes[next];
    forall k: nat
      ensures Reach(scopes, next, k).Some? && Reach(scopes, next, k).value in scopes
      ensures !AtService(scopes, Reach(scopes, next, k))
    {
      RoundForEver(scopes, seen, next, j, k);
      var i :| 0 <= i < |seen| && Reach(scopes, seen[j].id, k) == Some(seen[i].id);
      assert WalkedAt(scopes, seen, next, i);
    }
  }

  lemma ReachOn(scopes: ScopeMap, id: Id, steps: int)
    requires id in scopes && !scopes[id].lifetime.Service?
    ensures Lost(scopes, id, steps) <==> Lost(scopes, scopes[id].lifetime.parent, steps - 1)
    ensures Rooted(scopes, id, steps) <==> Rooted(scopes, scopes[id].lifetime.parent, steps - 1)
  {
    var up := scopes[id].lifetime.parent;
    assert forall k: nat :: Reach(scopes, id, k + 1) == Reach(scopes, up, k);
    if Lost(scopes, id, steps) {
      var k: nat :| k <= steps && Reach(scopes, id, k).Some? && Reach(scopes, id, k).value !in scopes;
      assert Reach(scopes, up, k - 1) == Reach(scopes, id, k);
    }
    if Rooted(scopes, id, steps) {
      var k: nat :| k < steps && AtService(scopes, Reach(scopes, id, k));
      assert Reach(scopes, up, k - 1) == Reach(scopes, id, k);
    }
    if Lost(scopes, up, steps - 1) {
      var k: nat :| k <= steps - 1 && Reach(scopes, up, k).Some? && Reach(scopes, up, k).value !in scopes;
      assert Reach(scopes, id, k + 1) == Reach(scopes, up, k);
    }
    if Rooted(scopes, up, steps - 1) {
      var k: nat :| k < steps - 1 && AtService(scopes, Reach(scopes, up, k));
      assert Reach(scopes, id, k + 1) == Reach(scopes, up, k);
    }
  }

  lemma ReachEnds(scopes: ScopeMap, id: Id, steps: int)
    ensures id !in scopes && steps >= 0 ==> Lost(scopes, id, steps) && !Rooted(scopes, id, steps)
    ensures id in scopes && scopes[id].lifetime.Service? ==>
      !Lost(scopes, id, steps) && (Rooted(scopes, id, steps) <==> steps > 0)
    ensures id in scopes ==> !Lost(scopes, id, 0)
    ensures !Rooted(scopes, id, 0)
  {
    assert Reach(scopes, id, 0) == Some(id);
    if id !in scopes || scopes[id].lifetime.Service? {
      assert forall k: nat :: k > 0 ==> Reach(scopes, id, k) == None;
    }
  }

  /** How the guarded walk ends. */
  lemma {:induction false} ChainIs(next: Id, scopes: ScopeMap, seen: seq<Scope>)
    requires |seen| <= MAX_STEPS && Walked(scopes, seen, next) && forall k :: k in scopes ==> scopes[k].id == k
    ensures Chain(Some(next), scopes, seen) == Err(UnknownScope) <==> Lost(scopes, next, MAX_STEPS - |seen|)
    ensures Chain(Some(next), scopes, seen).Ok? <==> Rooted(scopes, next, MAX_STEPS - |seen|)
    ensures Chain(Some(next), scopes, seen).Err? ==>
      Chain(Some(next), scopes, seen).error in {UnknownScope, InvalidScopeTree}
    decreases MAX_STEPS - |seen|
  {
    ReachEnds(scopes, next, MAX_STEPS - |seen|);
    if next in scopes {
      var scope := scopes[next];
      if scope in seen {
        RoundNowhere(scopes, seen, next, MAX_STEPS - |seen|);
      } else if |seen| < MAX_STEPS {
        ChainStep(next, scopes, seen);
      }
    }
  }

  lemma {:induction false} ChainStep(next: Id, scopes: ScopeMap, seen: seq<Scope>)
    requires |seen| < MAX_STEPS && Walked(scopes, seen, next) && forall k :: k in scopes ==> scopes[k].id == k
    requires next in scopes && scopes[next] !in seen
    ensures Chain(Some(next), scopes, seen) == Err(UnknownScope) <==> Lost(scopes, next, MAX_STEPS - |seen|)
    ensures Chain(Some(next), scopes, seen).Ok? <==> Rooted(scopes, next, MAX_STEPS - |seen|)
    ensures Chain(Some(next), scopes, seen).Err? ==>
      Chain(Some(next), scopes, seen).error in {UnknownScope, InvalidScopeTree}
    decreases MAX_STEPS - |seen|, 0
  {
    var scope := scopes[next];
    var further := seen + [scope];
    assert Chain(Some(next), scopes, seen) == Chain(Parent(scope.lifetime), scopes, further);
    if scope.lifetime.Service? {
      ReachEnds(scopes, next, MAX_STEPS - |seen|);
      assert Chain(None, scopes, further) == Ok(further);
    } else {
      ReachOn(scopes, next, MAX_STEPS - |seen|);
      forall j: nat | j < |further| ensures WalkedAt(scopes, further, scope.lifetime.parent, j) {
        if j < |seen| {
          assert WalkedAt(scopes, seen, next, j);
        }
      }
      ChainIs(scope.lifetime.parent, scopes, further);
    }
  }

  /* The scope phase. */

  /** The guarded walk, and the kind of scope, decide the complaint about a scope. */
  ghost predicate ScopeFacts(ss: seq<Scope>, scopes: ScopeMap, i: nat)
    requires i < |ss|
  {
    var chain, lifetime := Chain(Some(ss[i].id), scopes, []), ss[i].lifetime;
    && (chain.Err? ==> chain.error in {UnknownScope, InvalidScopeTree})
    && (chain == Err(UnknownScope) <==> Lost(scopes, ss[i].id, MAX_STEPS))
    && (chain.Ok? <==> Rooted(scopes, ss[i].id, MAX_STEPS))
    && (lifetime.Service? ==> (ServiceAmong(ss[..i]).None? <==> RightKind(ss, i)))
    && (chain.Ok? && !lifetime.Service? ==>
      (|chain.value| > 1 && MayContain(chain.value[1].lifetime, lifetime) <==> RightKind(ss, i)))
  }

  lemma ScopeFactsHold(ss: seq<Scope>, scopes: ScopeMap, i: nat)
    requires Indexes(scopes, ss, ScopeId) && i < |ss|
    ensures ScopeFacts(ss, scopes, i)
  {
    var s := ss[i];
    assert ScopeId(s) in scopes && scopes[s.id] == s;
    ChainIs(s.id, scopes, []);
    if s.lifetime.Service? {
      OnlyService(ss, i);
    } else if Chain(Some(s.id), scopes, []).Ok? {
      ChainParent(s.id, scopes);
      PlacedIs(ss, scopes, s);
    }
  }

  lemma OnlyService(ss: seq<Scope>, i: nat)
    requires i < |ss| && ss[i].lifetime.Service?
    ensures ServiceAmong(ss[..i]).None? <==> RightKind(ss, i)
  {
    ServiceAmongIs(ss[..i]);
    if ServiceAmong(ss[..i]).None? {
      forall j | 0 <= j < i ensures !ss[j].lifetime.Service? {
        assert ss[..i][j] in ss[..i];
      }
    }
  }

  lemma ScopeErrorSays(ss: seq<Scope>, scopes: ScopeMap, i: nat, code: Code)
    requires scopes == IndexBy(ss, ScopeId) && i < |ss| && ScopeFacts(ss, scopes, i)
    ensures ScopeError(ss, scopes, i) == Some(code) <==> ScopeComplaint(ss, i, code)
  {
  }

  lemma ScopeErrorNone(ss: seq<Scope>, scopes: ScopeMap, i: nat)
    requires scopes == IndexBy(ss, ScopeId) && i < |ss| && ScopeFacts(ss, scopes, i)
    ensures ScopeError(ss, scopes, i).None? <==> ScopeFits(ss, i)
  {
  }

  lemma PlacedIs(ss: seq<Scope>, scopes: ScopeMap, s: Scope)
    requires Indexes(scopes, ss, ScopeId) && !s.lifetime.Service? && s.lifetime.parent in scopes
    ensures Placed(ss, s) <==> MayContain(scopes[s.lifetime.parent].lifetime, s.lifetime)
  {
    var p := scopes[s.lifetime.parent];
    assert p in ss && ScopeId(p) == s.lifetime.parent;
    forall q | q in ss && q.id == s.lifetime.parent ensures q == p {
      assert ScopeId(q) in scopes && scopes[ScopeId(q)] == q;
    }
  }

  lemma {:induction false} FirstScope(ss: seq<Scope>, scopes: ScopeMap, i: nat) returns (k: nat)
    requires ScopesError(ss, scopes, i).Some?
    ensures i <= k < |ss| && ScopesError(ss, scopes, i) == ScopeError(ss, scopes, k)
    ensures forall j: nat :: i <= j < k ==> ScopeError(ss, scopes, j).None?
    decreases |ss| - i
  {
    k := i;
    if ScopeError(ss, scopes, i).None? {
      k := FirstScope(ss, scopes, i + 1);
    }
  }

  lemma {:induction false} ScopesSkip(ss: seq<Scope>, scopes: ScopeMap, i: nat, k: nat)
    requires i <= k <= |ss| && forall j: nat :: i <= j < k ==> ScopeError(ss, scopes, j).None?
    ensures ScopesError(ss, scopes, i) == ScopesError(ss, scopes, k)
    decreases k - i
  {
    if i < k {
      ScopesSkip(ss, scopes, i + 1, k);
    }
  }

  lemma ScopesQuiet(ss: seq<Scope>, scopes: ScopeMap, k: nat)
    requires scopes == IndexBy(ss, ScopeId) && Indexes(scopes, ss, ScopeId) && k <= |ss|
    ensures ScopesFitBefore(ss, k) <==> forall j: nat :: j < k ==> ScopeError(ss, scopes, j).None?
  {
    forall j: nat | j < k ensures ScopeError(ss, scopes, j).None? <==> ScopeFits(ss, j) {
      ScopeFactsHold(ss, scopes, j);
      ScopeErrorNone(ss, scopes, j);
    }
  }

  lemma ScopesErrorSays(ss: seq<Scope>, scopes: ScopeMap, code: Code)
    requires scopes == IndexBy(ss, ScopeId) && Indexes(scopes, ss, ScopeId)
    ensures ScopesError(ss, scopes, 0) == Some(code)
      <==> exists i: nat :: i < |ss| && ScopesFitBefore(ss, i) && ScopeComplaint(ss, i, code)
  {
    if ScopesError(ss, scopes, 0) == Some(code) {
      var k := FirstScope(ss, scopes, 0);
      ScopesQuiet(ss, scopes, k);
      ScopeFactsHold(ss, scopes, k);
      ScopeErrorSays(ss, scopes, k, code);
    }
    if i: nat :| i < |ss| && ScopesFitBefore(ss, i) && ScopeComplaint(ss, i, code) {
      ScopesQuiet(ss, scopes, i);
      ScopesSkip(ss, scopes, 0, i);
      ScopeFactsHold(ss, scopes, i);
      ScopeErrorSays(ss, scopes, i, code);
    }
  }

  /** The scope phase reports the first scope that does not fit, or that there is no service. */
  lemma ScopesOutcomeIs(ss: seq<Scope>, code: Code)
    requires UniqueBy(ss, ScopeId)
    ensures ScopesOutcome(ss, IndexBy(ss, ScopeId)) == Err(code) <==> ScopesComplain(ss, code)
  {
    var scopes := IndexBy(ss, ScopeId);
    IndexByIndexes(ss, ScopeId);
    ScopesErrorSays(ss, scopes, code);
    ServiceAmongIs(ss);
    ScopesQuiet(ss, scopes, |ss|);
    ScopesErrorNone(ss, scopes, 0);
  }

  /* The node phase. */

  /** The linker's checks of a node decide what the predicates say. */
  ghost predicate NodeFacts(p: Composition, scopes: ScopeMap, nodes: NodeMap, service: Id, i: nat)
    requires i < |p.nodes|
  {
    var n := p.nodes[i];
    var chain := Chain(Some(n.scope), scopes, []);
    && (chain == Err(UnknownScope) || chain.Ok?)
    && (chain.Ok? <==> ScopeKnown(p, n.scope))
    && (ServiceKnown(p, n.site.serviceId) <==> n.site.serviceId == service)
    && (chain.Ok? ==> (Misplaced(n.site, chain.value) <==> !OnItsMachine(p, n)))
    && (chain.Ok? ==> (OwnerFits(n, chain.value, nodes) <==> OwnerKnown(p, n)))
  }

  lemma NodeFactsHold(p: Composition, scopes: ScopeMap, nodes: NodeMap, service: Id, i: nat)
    requires Treed(p, scopes, nodes, service) && i < |p.nodes|
    ensures NodeFacts(p, scopes, nodes, service, i)
  {
    var n := p.nodes[i];
    ScopeIs(p, scopes, n.scope);
    ServiceIs(p, scopes, nodes, service, n.site.serviceId);
    if n.scope in scopes {
      MisplacedIs(p, scopes, n);
      OwnerIs(p, scopes, nodes, service, n);
    } else {
      assert Chain(Some(n.scope), scopes, []) == Err(UnknownScope);
    }
  }

  lemma NodeErrorSays(p: Composition, scopes: ScopeMap, nodes: NodeMap, service: Id, i: nat, code: Code)
    requires i < |p.nodes| && NodeFacts(p, scopes, nodes, service, i)
    ensures NodeError(p.nodes, i, scopes, nodes, service) == Some(code) <==> NodeComplaint(p, i, code)
  {
  }

  lemma {:induction false} FirstNode(ns: seq<Node>, i: nat, scopes: ScopeMap, nodes: NodeMap, service: Id)
    returns (k: nat)
    requires NodesError(ns, i, scopes, nodes, service).Some?
    ensures i <= k < |ns| && NodesError(ns, i, scopes, nodes, service) == NodeError(ns, k, scopes, nodes, service)
    ensures forall j: nat :: i <= j < k ==> NodeError(ns, j, scopes, nodes, service).None?
    decreases |ns| - i
  {
    k := i;
    if NodeError(ns, i, scopes, nodes, service).None? {
      k := FirstNode(ns, i + 1, scopes, nodes, service);
    }
  }

  lemma {:induction false} NodesSkip(ns: seq<Node>, i: nat, k: nat, scopes: ScopeMap, nodes: NodeMap, service: Id)
    requires i <= k <= |ns| && forall j: nat :: i <= j < k ==> NodeError(ns, j, scopes, nodes, service).None?
    ensures NodesError(ns, i, scopes, nodes, service) == NodesError(ns, k, scopes, nodes, service)
    decreases k - i
  {
    if i < k {
      NodesSkip(ns, i + 1, k, scopes, nodes, service);
    }
  }

  lemma NodesQuiet(p: Composition, scopes: ScopeMap, nodes: NodeMap, service: Id, k: nat)
    requires Treed(p, scopes, nodes, service) && k <= |p.nodes|
    ensures NodesOkBefore(p, k) <==> forall j: nat :: j < k ==> NodeError(p.nodes, j, scopes, nodes, service).None?
  {
    forall j: nat | j < k ensures NodeError(p.nodes, j, scopes, nodes, service).None? <==> NodeOk(p, j) {
      NodeErrorIs(p, scopes, nodes, service, j);
    }
  }

  lemma NodesErrorSays(p: Composition, scopes: ScopeMap, nodes: NodeMap, service: Id, code: Code)
    requires Treed(p, scopes, nodes, service)
    ensures NodesError(p.nodes, 0, scopes, nodes, service) == Some(code) <==> NodesComplain(p, code)
  {
    if NodesError(p.nodes, 0, scopes, nodes, service) == Some(code) {
      var k := FirstNode(p.nodes, 0, scopes, nodes, service);
      NodesQuiet(p, scopes, nodes, service, k);
      NodeFactsHold(p, scopes, nodes, service, k);
      NodeErrorSays(p, scopes, nodes, service, k, code);
    }
    if i: nat :| i < |p.nodes| && NodesOkBefore(p, i) && NodeComplaint(p, i, code) {
      NodesQuiet(p, scopes, nodes, service, i);
      NodesSkip(p.nodes, 0, i, scopes, nodes, service);
      NodeFactsHold(p, scopes, nodes, service, i);
      NodeErrorSays(p, scopes, nodes, service, i, code);
    }
  }

  /* The binding phase. */

  /** Two ports that exist are the ones the linker finds. */
  lemma EndsFound(p: Composition, nodes: NodeMap, b: Binding, consumer: Node, provider: Node,
                  required: RequiredPort, provided: ProvidedPort)
    requires Indexes(nodes, p.nodes, NodeId) && forall n :: n in p.nodes ==> UniquePorts(n)
    requires Ends(p, b, consumer, provider, required, provided)
    ensures b.consumer.node in nodes && nodes[b.consumer.node] == consumer
    ensures b.provider.node in nodes && nodes[b.provider.node] == provider
    ensures FindRequired(consumer.required, b.consumer.port) == Some(required)
    ensures FindProvided(provider.provided, b.provider.port) == Some(provided)
  {
    assert NodeId(consumer) in nodes && nodes[NodeId(consumer)] == consumer;
    assert NodeId(provider) in nodes && nodes[NodeId(provider)] == provider;
    PortFound(consumer.required, RequiredId, required, FindRequired(consumer.required, b.consumer.port).value);
    PortFound(provider.provided, ProvidedId, provided, FindProvided(provider.provided, b.provider.port).value);
  }

  lemma LinkErrorSays(p: Composition, scopes: ScopeMap, consumer: Node, provider: Node, required: RequiredPort,
                      provided: ProvidedPort, code: Code)
    requires scopes == IndexBy(p.scopes, ScopeId) && WellKinded(scopes) && consumer.scope in scopes
    requires forall k :: k in scopes ==> scopes[k].id == k
    ensures LinkError(consumer, provider, required, provided, scopes) == Some(code)
      <==> EndsComplaint(p, consumer, provider, required, provided, code)
  {
    VisibleIs(p, scopes, consumer, provider, provided);
  }

  /** The ends of a binding are found exactly when they exist. */
  lemma EndsAre(p: Composition, nodes: NodeMap, b: Binding)
    requires Indexes(nodes, p.nodes, NodeId) && forall n :: n in p.nodes ==> UniquePorts(n)
    ensures EndsExist(b, nodes) <==> HasEnds(p, b)
    ensures EndsExist(b, nodes) ==>
      var consumer, provider := nodes[b.consumer.node], nodes[b.provider.node];
      Ends(p, b, consumer, provider, FindRequired(consumer.required, b.consumer.port).value,
           FindProvided(provider.provided, b.provider.port).value)
  {
    if HasEnds(p, b) {
      var consumer, provider, required, provided :| Ends(p, b, consumer, provider, required, provided);
      EndsFound(p, nodes, b, consumer, provider, required, provided);
    }
    if EndsExist(b, nodes) {
      var consumer, provider := nodes[b.consumer.node], nodes[b.provider.node];
      assert NodeId(consumer) == b.consumer.node && NodeId(provider) == b.provider.node;
      assert Ends(p, b, consumer, provider, FindRequired(consumer.required, b.consumer.port).value,
                  FindProvided(provider.provided, b.provider.port).value);
    }
  }

  lemma LinkComplaintIs(p: Composition, scopes: ScopeMap, nodes: NodeMap, b: Binding, code: Code)
    requires scopes == IndexBy(p.scopes, ScopeId) && WellKinded(scopes) && forall k :: k in scopes ==> scopes[k].id == k
    requires Indexes(nodes, p.nodes, NodeId)
    requires forall n :: n in p.nodes ==> UniquePorts(n) && n.scope in scopes
    requires EndsExist(b, nodes)
    ensures
      var consumer, provider := nodes[b.consumer.node], nodes[b.provider.node];
      LinkComplaint(p, b, code)
      <==> LinkError(consumer, provider, FindRequired(consumer.required, b.consumer.port).value,
                     FindProvided(provider.provided, b.provider.port).value, scopes) == Some(code)
  {
    EndsAre(p, nodes, b);
    var consumer, provider := nodes[b.consumer.node], nodes[b.provider.node];
    LinkErrorSays(p, scopes, consumer, provider, FindRequired(consumer.required, b.consumer.port).value,
                  FindProvided(provider.provided, b.provider.port).value, code);
    if LinkComplaint(p, b, code) {
      var consumer', provider', required, provided :|
        && Ends(p, b, consumer', provider', required, provided)
        && EndsComplaint(p, consumer', provider', required, provided, code);
      EndsFound(p, nodes, b, consumer', provider', required, provided);
    }
  }

  lemma BindingErrorSays(p: Composition, scopes: ScopeMap, nodes: NodeMap, service: Id, i: nat, code: Code)
    requires Treed(p, scopes, nodes, service) && i < |p.bindings|
    requires forall n :: n in p.nodes ==> UniquePorts(n) && n.scope in scopes
    ensures BindingError(p.bindings, i, scopes, nodes) == Some(code) <==> BindingComplaint(p, i, code)
  {
    var b := p.bindings[i];
    EndsAre(p, nodes, b);
    LinkComplaintKinds(p, b, code);
    if EndsExist(b, nodes) {
      LinkComplaintIs(p, scopes, nodes, b, code);
    }
    BindingErrorCases(p, scopes, nodes, i, code);
  }

  lemma LinkComplaintKinds(p: Composition, b: Binding, code: Code)
    ensures LinkComplaint(p, b, code) ==>
      HasEnds(p, b) && code in {ContractMismatch, ScopeNotVisible, LocalPortCrossesSite}
  {
  }

  lemma BindingErrorCases(p: Composition, scopes: ScopeMap, nodes: NodeMap, i: nat, code: Code)
    requires i < |p.bindings|
    requires EndsExist(p.bindings[i], nodes) <==> HasEnds(p, p.bindings[i])
    requires LinkComplaint(p, p.bindings[i], code) ==>
      HasEnds(p, p.bindings[i]) && code in {ContractMismatch, ScopeNotVisible, LocalPortCrossesSite}
    requires EndsExist(p.bindings[i], nodes) ==>
      var consumer, provider := nodes[p.bindings[i].consumer.node], nodes[p.bindings[i].provider.node];
      LinkComplaint(p, p.bindings[i], code)
      <==> LinkError(consumer, provider, FindRequired(consumer.required, p.bindings[i].consumer.port).value,
                     FindProvided(provider.provided, p.bindings[i].provider.port).value, scopes) == Some(code)
    ensures BindingError(p.bindings, i, scopes, nodes) == Some(code) <==> BindingComplaint(p, i, code)
  {
  }

  lemma {:induction false} FirstBinding(bs: seq<Binding>, i: nat, scopes: ScopeMap, nodes: NodeMap)
    returns (k: nat)
    requires BindingsError(bs, i, scopes, nodes).Some?
    ensures i <= k < |bs| && BindingsError(bs, i, scopes, nodes) == BindingError(bs, k, scopes, nodes)
    ensures forall j: nat :: i <= j < k ==> BindingError(bs, j, scopes, nodes).None?
    decreases |bs| - i
  {
    k := i;
    if BindingError(bs, i, scopes, nodes).None? {
      k := FirstBinding(bs, i + 1, scopes, nodes);
    }
  }

  lemma {:induction false} BindingsSkip(bs: seq<Binding>, i: nat, k: nat, scopes: ScopeMap, nodes: NodeMap)
    requires i <= k <= |bs| && forall j: nat :: i <= j < k ==> BindingError(bs, j, scopes, nodes).None?
    ensures BindingsError(bs, i, scopes, nodes) == BindingsError(bs, k, scopes, nodes)
    decreases k - i
  {
    if i < k {
      BindingsSkip(bs, i + 1, k, scopes, nodes);
    }
  }

  lemma BindingsQuiet(p: Composition, scopes: ScopeMap, nodes: NodeMap, service: Id, k: nat)
    requires Treed(p, scopes, nodes, service) && k <= |p.bindings|
    requires forall n :: n in p.nodes ==> UniquePorts(n) && n.scope in scopes
    ensures BindingsOkBefore(p, k) <==> forall j: nat :: j < k ==> BindingError(p.bindings, j, scopes, nodes).None?
  {
    forall j: nat | j < k ensures BindingError(p.bindings, j, scopes, nodes).None? <==> NewAndFits(p, j) {
      BindingErrorIs(p, scopes, nodes, service, j);
    }
  }

  lemma BindingsReport(p: Composition, scopes: ScopeMap, nodes: NodeMap, service: Id, i: nat, code: Code)
    requires Treed(p, scopes, nodes, service)
    requires forall n :: n in p.nodes ==> UniquePorts(n) && n.scope in scopes
    requires i < |p.bindings| && BindingsOkBefore(p, i) && BindingComplaint(p, i, code)
    ensures BindingsError(p.bindings, 0, scopes, nodes) == Some(code)
  {
    BindingsQuiet(p, scopes, nodes, service, i);
    BindingsSkip(p.bindings, 0, i, scopes, nodes);
    BindingErrorSays(p, scopes, nodes, service, i, code);
  }

  lemma BindingsErrorSays(p: Composition, scopes: ScopeMap, nodes: NodeMap, service: Id, code: Code)
    requires Treed(p, scopes, nodes, service)
    requires forall n :: n in p.nodes ==> UniquePorts(n) && n.scope in scopes
    ensures BindingsError(p.bindings, 0, scopes, nodes) == Some(code) <==> BindingsComplain(p, code)
  {
    if BindingsError(p.bindings, 0, scopes, nodes) == Some(code) {
      var k := FirstBinding(p.bindings, 0, scopes, nodes);
      assert BindingsOkBefore(p, k) by {
        BindingsQuiet(p, scopes, nodes, service, k);
      }
      assert BindingComplaint(p, k, code) by {
        BindingErrorSays(p, scopes, nodes, service, k, code);
      }
    }
    if i: nat :| i < |p.bindings| && BindingsOkBefore(p, i) && BindingComplaint(p, i, code) {
      BindingsReport(p, scopes, nodes, service, i, code);
    }
  }

  /* The whole. */

  /** Each phase fails as the predicates say. */
  ghost predicate PhasesSay(p: Composition, fingerprint: Str, service: Id, code: Code) {
    var scopes, nodes := IndexBy(p.scopes, ScopeId), IndexBy(p.nodes, NodeId);
    && (NodesError(p.nodes, 0, scopes, nodes, service).None? <==> NodesFit(p))
    && (NodesError(p.nodes, 0, scopes, nodes, service) == Some(code) <==> NodesComplain(p, code))
    && (NodesFit(p) ==> BindingPhasesSay(p, fingerprint, scopes, nodes, code))
  }

  ghost predicate BindingPhasesSay(p: Composition, fingerprint: Str, scopes: ScopeMap, nodes: NodeMap, code: Code) {
    && (BindingsError(p.bindings, 0, scopes, nodes).None? <==> BindingsFit(p))
    && (BindingsError(p.bindings, 0, scopes, nodes) == Some(code) <==> BindingsComplain(p, code))
    && (BindingsFit(p) ==> (AllFed(p.nodes, p.bindings) <==> PortsFed(p)))
    && (BindingsFit(p) ==> (Linked(p, fingerprint, nodes).Ok? <==> Acyclic(Dependencies(p))))
  }

  lemma BindingPhasesHold(p: Composition, fingerprint: Str, scopes: ScopeMap, nodes: NodeMap, service: Id, code: Code)
    requires Treed(p, scopes, nodes, service) && Sorted(p.nodes, CompareNodes) && NodesFit(p)
    ensures BindingPhasesSay(p, fingerprint, scopes, nodes, code)
  {
    NodesFitKnow(p, scopes, nodes, service);
    BindingsErrorIs(p, scopes, nodes, service);
    BindingsErrorSays(p, scopes, nodes, service, code);
    if BindingsFit(p) {
      FedIs(p);
      OrderIs(p);
    }
  }

  lemma PhasesHold(p: Composition, fingerprint: Str, service: Id, code: Code)
    requires Sorted(p.nodes, CompareNodes) && UniqueBy(p.nodes, NodeId)
    requires UniqueBy(p.scopes, ScopeId) && ScopeTree(p.scopes) && ServiceKnown(p, service)
    ensures PhasesSay(p, fingerprint, service, code)
  {
    var scopes, nodes := IndexBy(p.scopes, ScopeId), IndexBy(p.nodes, NodeId);
    TreedBy(p, scopes, nodes, service);
    NodesErrorIs(p, scopes, nodes, service);
    NodesErrorSays(p, scopes, nodes, service, code);
    if NodesFit(p) {
      BindingPhasesHold(p, fingerprint, scopes, nodes, service, code);
    }
  }

  lemma LaterOutcomeSays(p: Composition, fingerprint: Str, service: Id, scopes: ScopeMap, nodes: NodeMap, code: Code)
    requires scopes == IndexBy(p.scopes, ScopeId) && nodes == IndexBy(p.nodes, NodeId)
    requires UniqueBy(p.nodes, NodeId) && NodesError(p.nodes, 0, scopes, nodes, service).None?
    requires BindingPhasesSay(p, fingerprint, scopes, nodes, code)
    ensures NodesOutcome(p, fingerprint, service) == Err(code) <==> LaterComplains(p, code)
  {
  }

  lemma NodesOutcomeSays(p: Composition, fingerprint: Str, service: Id, code: Code)
    requires UniqueBy(p.scopes, ScopeId) && ScopeTree(p.scopes)
    requires UniqueBy(p.nodes, NodeId) ==> PhasesSay(p, fingerprint, service, code)
    ensures NodesOutcome(p, fingerprint, service) == Err(code) <==> Complains(p, code)
  {
    if UniqueBy(p.nodes, NodeId) && NodesFit(p) {
      LaterOutcomeSays(p, fingerprint, service, IndexBy(p.scopes, ScopeId), IndexBy(p.nodes, NodeId), code);
    }
  }

  lemma OutcomeSays(p: Composition, fingerprint: Str, code: Code)
    requires Sorted(p.nodes, CompareNodes)
    ensures Outcome(p, fingerprint) == Err(code) <==> Complains(p, code)
  {
    if UniqueBy(p.scopes, ScopeId) {
      ScopesOutcomeIff(p.scopes);
      ScopesOutcomeIs(p.scopes, code);
      var service := ScopesOutcome(p.scopes, IndexBy(p.scopes, ScopeId));
      if service.Ok? {
        if UniqueBy(p.nodes, NodeId) {
          PhasesHold(p, fingerprint, service.value, code);
        }
        NodesOutcomeSays(p, fingerprint, service.value, code);
      }
    }
  }

  /** The checker answers with a code exactly when that code names the first thing wrong with the sorted composition. */
  lemma CheckSays(c: Composition, fingerprint: Str, code: Code)
    ensures SameUpToOrder(c, Proposed(c))
    ensures Check(c, fingerprint) == Err(code) <==> Complains(Proposed(c), code)
  {
    ProposedSame(c);
    OutcomeSays(Proposed(c), fingerprint, code);
  }
}
