/** What an error code says of the composition itself, in whatever order it was written. */
module Faults {
  import opened Strings
  import opened Orders
  import opened Results
  import opened Composition
  import opened Graph
  import opened Scopes
  import opened Proposal
  import opened LinkSpec
  import opened Linking
  import opened Reordering
  import opened ErrorCodes

  ghost predicate SoundScopes(c: Composition) {
    UniqueBy(c.scopes, ScopeId) && ScopeTree(c.scopes)
  }

  ghost predicate SoundNodes(c: Composition) {
    SoundScopes(c) && UniqueBy(c.nodes, NodeId) && NodesFit(c)
  }

  function LifetimeOf(s: Scope): Lifetime {
    s.lifetime
  }

  ghost predicate NodeBlamed(c: Composition, n: Node, code: Code) {
    match code
    case UnknownScope => !ScopeKnown(c, n.scope)
    case InvalidPlacement => ScopeKnown(c, n.scope) && !AtHome(c, n)
    case ServiceExecutable => AtHome(c, n) && IsolatedAtService(n)
    case GenerationConflict => AtHome(c, n) && !IsolatedAtService(n) && !OneRelease(c.nodes)
    case InvalidOwner => AtHome(c, n) && !IsolatedAtService(n) && !OwnerKnown(c, n)
    case DuplicatePort => AtHome(c, n) && !IsolatedAtService(n) && OwnerKnown(c, n) && !UniquePorts(n)
    case PortBudget => NodeFits(c, n) && PortTotal(c.nodes) > PORT_BUDGET
    case _ => false
  }

  ghost predicate BlamesNode(c: Composition, code: Code) {
    exists n :: n in c.nodes && NodeBlamed(c, n, code)
  }

  ghost predicate BlamesBinding(c: Composition, code: Code) {
    match code
    case DuplicateBinding => !DistinctEdges(c.bindings)
    case InvalidEndpoint => exists b :: b in c.bindings && !HasEnds(c, b)
    case _ => exists b :: b in c.bindings && LinkComplaint(c, b, code)
  }

  /** What is wrong with `c` when `code` is the answer. */
  ghost predicate Blames(c: Composition, code: Code) {
    match code
    case DuplicateScope => !UniqueBy(c.scopes, ScopeId) || !UniqueBy(c.scopes, LifetimeOf)
    case InvalidScopeTree => UniqueBy(c.scopes, ScopeId) && !ScopeTree(c.scopes)
    case DuplicateNode => SoundScopes(c) && !UniqueBy(c.nodes, NodeId)
    case DuplicateBinding | InvalidEndpoint | ContractMismatch | ScopeNotVisible | LocalPortCrossesSite =>
      SoundNodes(c) && BlamesBinding(c, code)
    case CardinalityMismatch => SoundNodes(c) && BindingsFit(c) && !PortsFed(c)
    case DependencyCycle => SoundNodes(c) && BindingsFit(c) && PortsFed(c) && !Acyclic(Dependencies(c))
    case UnknownScope =>
      UniqueBy(c.scopes, ScopeId) && (ScopeTree(c.scopes) ==> exists n :: n in c.nodes && !ScopeKnown(c, n.scope))
    case _ => SoundScopes(c) && UniqueBy(c.nodes, NodeId) && BlamesNode(c, code)
  }

  lemma ScopesBlamed(p: Composition, code: Code)
    requires UniqueBy(p.scopes, ScopeId) && !ScopeTree(p.scopes) && ScopesComplain(p.scopes, code)
    ensures Blames(p, code)
  {
    if i: nat :| i < |p.scopes| && ScopesFitBefore(p.scopes, i) && ScopeComplaint(p.scopes, i, code) {
      if code == DuplicateScope {
        var j :| 0 <= j < i && p.scopes[..i][j].lifetime == p.scopes[i].lifetime;
        assert LifetimeOf(p.scopes[j]) == LifetimeOf(p.scopes[i]);
      }
    }
  }

  lemma NodeComplaintBlames(p: Composition, i: nat, code: Code)
    requires i < |p.nodes| && NodeComplaint(p, i, code)
    ensures NodeBlamed(p, p.nodes[i], code)
  {
    match code
    case GenerationConflict =>
      ReleasesAgree(p.nodes);
    case PortBudget =>
      PortTotalGrows(p.nodes, i + 1);
    case _ =>
  }

  lemma NodesBlamed(p: Composition, code: Code)
    requires NodesComplain(p, code)
    ensures BlamesNode(p, code)
    ensures code in {
      UnknownScope, InvalidPlacement, ServiceExecutable, GenerationConflict, InvalidOwner, DuplicatePort, PortBudget}
    ensures code == UnknownScope ==> exists n :: n in p.nodes && !ScopeKnown(p, n.scope)
  {
    var i: nat :| i < |p.nodes| && NodesOkBefore(p, i) && NodeComplaint(p, i, code);
    NodeComplaintBlames(p, i, code);
    assert p.nodes[i] in p.nodes;
  }

  lemma BindingsBlamed(p: Composition, code: Code)
    requires BindingsComplain(p, code)
    ensures BlamesBinding(p, code)
    ensures code in {DuplicateBinding, InvalidEndpoint, ContractMismatch, ScopeNotVisible, LocalPortCrossesSite}
  {
    var i: nat :| i < |p.bindings| && BindingsOkBefore(p, i) && BindingComplaint(p, i, code);
    LinkComplaintKinds(p, p.bindings[i], code);
    EdgesDistinct(p.bindings);
    assert p.bindings[i] in p.bindings;
  }

  lemma ComplaintBlames(p: Composition, code: Code)
    requires Complains(p, code)
    ensures Blames(p, code)
  {
    if SoundScopes(p) && UniqueBy(p.nodes, NodeId) {
      if !NodesFit(p) {
        NodesBlamed(p, code);
      } else if !BindingsFit(p) {
        BindingsBlamed(p, code);
      }
    } else if UniqueBy(p.scopes, ScopeId) && !ScopeTree(p.scopes) {
      ScopesBlamed(p, code);
    }
  }

  /* Blame forgets order. */

  lemma SoundForgets(c: Composition, d: Composition)
    requires SameUpToOrder(c, d)
    ensures UniqueBy(c.scopes, ScopeId) <==> UniqueBy(d.scopes, ScopeId)
    ensures UniqueBy(c.scopes, LifetimeOf) <==> UniqueBy(d.scopes, LifetimeOf)
    ensures SoundScopes(c) <==> SoundScopes(d)
    ensures UniqueBy(c.nodes, NodeId) <==> UniqueBy(d.nodes, NodeId)
    ensures SoundNodes(c) <==> SoundNodes(d)
    ensures DistinctEdges(c.bindings) <==> DistinctEdges(d.bindings)
  {
    SameSymmetric(c, d);
    SoundForget(c, d);
    SoundForget(d, c);
  }

  lemma SoundForget(c: Composition, d: Composition)
    requires SameUpToOrder(c, d)
    ensures UniqueBy(c.scopes, ScopeId) ==> UniqueBy(d.scopes, ScopeId)
    ensures UniqueBy(c.scopes, LifetimeOf) ==> UniqueBy(d.scopes, LifetimeOf)
    ensures SoundScopes(c) ==> SoundScopes(d)
    ensures UniqueBy(c.nodes, NodeId) ==> UniqueBy(d.nodes, NodeId)
    ensures SoundNodes(c) ==> SoundNodes(d)
    ensures DistinctEdges(c.bindings) ==> DistinctEdges(d.bindings)
  {
    if UniqueBy(c.scopes, ScopeId) {
      ScopesForget(c, d);
    }
    if UniqueBy(c.scopes, LifetimeOf) {
      UniqueForgetsOrder(c.scopes, d.scopes, LifetimeOf);
    }
    if UniqueBy(c.nodes, NodeId) {
      UniqueViews(c.nodes);
      UniqueViews(d.nodes);
      UniqueForgetsOrder(Views(c.nodes), Views(d.nodes), ViewId);
    }
    if SoundNodes(c) {
      NodesForget(c, d);
    }
    if DistinctEdges(c.bindings) {
      UniqueForgetsOrder(c.bindings, d.bindings, EdgeOf);
    }
  }

  lemma OwnerForget(c: Composition, d: Composition, n: Node, m: Node)
    requires SameUpToOrder(c, d) && UniqueBy(c.scopes, ScopeId) && View(n) == View(m) && OwnerKnown(c, n)
    ensures OwnerKnown(d, m)
  {
    ScopesForget(c, d);
    if m.owner.NodeOwner? {
      var o :| o in c.nodes && o.id == n.owner.node && Owns(c, o, n);
      var o' := Counterpart(c.nodes, d.nodes, o);
      assert Owns(d, o', m);
    }
  }

  lemma OwnerForgets(c: Composition, d: Composition, n: Node, m: Node)
    requires SameUpToOrder(c, d) && UniqueBy(c.scopes, ScopeId) && View(n) == View(m)
    ensures OwnerKnown(c, n) <==> OwnerKnown(d, m)
  {
    SameSymmetric(c, d);
    ScopesForget(c, d);
    if OwnerKnown(c, n) {
      OwnerForget(c, d, n, m);
    }
    if OwnerKnown(d, m) {
      OwnerForget(d, c, m, n);
    }
  }

  lemma AtHomeForgets(c: Composition, d: Composition, n: Node, m: Node)
    requires SameUpToOrder(c, d) && UniqueBy(c.scopes, ScopeId) && View(n) == View(m)
    ensures ScopeKnown(c, n.scope) <==> ScopeKnown(d, m.scope)
    ensures AtHome(c, n) <==> AtHome(d, m)
    ensures IsolatedAtService(n) <==> IsolatedAtService(m)
  {
    ScopesForget(c, d);
  }

  lemma NodeBlameForgets(c: Composition, d: Composition, n: Node, m: Node, code: Code)
    requires SameUpToOrder(c, d) && UniqueBy(c.scopes, ScopeId) && View(n) == View(m)
    requires NodeBlamed(c, n, code)
    ensures NodeBlamed(d, m, code)
  {
    AtHomeForgets(c, d, n, m);
    match code
    case GenerationConflict =>
      ReleasesForget(c, d);
    case InvalidOwner =>
      OwnerForgets(c, d, n, m);
    case DuplicatePort =>
      OwnerForgets(c, d, n, m);
      ViewPorts(n, m);
    case PortBudget =>
      NodeForgets(c, d, n, m);
      TotalForgets(c, d);
    case _ =>
  }

  lemma TotalForgets(c: Composition, d: Composition)
    requires SameUpToOrder(c, d)
    ensures PortTotal(c.nodes) == PortTotal(d.nodes)
  {
    PortTotalViews(c.nodes);
    PortTotalViews(d.nodes);
    ViewTotalForgets(Views(c.nodes), Views(d.nodes));
  }

  lemma ReleasesForget(c: Composition, d: Composition)
    requires SameUpToOrder(c, d)
    ensures OneRelease(c.nodes) <==> OneRelease(d.nodes)
  {
    SameSymmetric(c, d);
    ReleaseForget(c, d);
    ReleaseForget(d, c);
  }

  lemma ReleaseForget(c: Composition, d: Composition)
    requires SameUpToOrder(c, d)
    ensures OneRelease(c.nodes) ==> OneRelease(d.nodes)
  {
    if OneRelease(c.nodes) {
      forall m, m' | m in d.nodes && m' in d.nodes && SameSlot(m, m')
        ensures m.identity.release == m'.identity.release
      {
        var n := Counterpart(d.nodes, c.nodes, m);
        var n' := Counterpart(d.nodes, c.nodes, m');
        assert SameSlot(n, n');
      }
    }
  }

  lemma EndsForget(c: Composition, d: Composition, b: Binding, consumer: Node, provider: Node,
                   required: RequiredPort, provided: ProvidedPort)
    returns (consumer': Node, provider': Node)
    requires SameUpToOrder(c, d) && Ends(c, b, consumer, provider, required, provided)
    ensures Ends(d, b, consumer', provider', required, provided)
    ensures View(consumer') == View(consumer) && View(provider') == View(provider)
  {
    consumer' := Counterpart(c.nodes, d.nodes, consumer);
    provider' := Counterpart(c.nodes, d.nodes, provider);
    ViewPorts(consumer, consumer');
    ViewPorts(provider, provider');
  }

  lemma HasEndsForgets(c: Composition, d: Composition, b: Binding)
    requires SameUpToOrder(c, d) && HasEnds(c, b)
    ensures HasEnds(d, b)
  {
    var consumer, provider, required, provided :| Ends(c, b, consumer, provider, required, provided);
    var consumer', provider' := EndsForget(c, d, b, consumer, provider, required, provided);
  }

  lemma LinkComplaintForgets(c: Composition, d: Composition, b: Binding, code: Code)
    requires SameUpToOrder(c, d) && UniqueBy(c.scopes, ScopeId) && LinkComplaint(c, b, code)
    ensures LinkComplaint(d, b, code)
  {
    ScopesForget(c, d);
    var consumer, provider, required, provided :|
      && Ends(c, b, consumer, provider, required, provided)
      && EndsComplaint(c, consumer, provider, required, provided, code);
    var consumer', provider' := EndsForget(c, d, b, consumer, provider, required, provided);
    assert Seen(c, consumer, provider, provided) <==> Seen(d, consumer', provider', provided);
    assert EndsComplaint(d, consumer', provider', required, provided, code);
  }

  lemma BindingBlameForgets(c: Composition, d: Composition, b: Binding, code: Code)
    requires SameUpToOrder(c, d) && UniqueBy(c.scopes, ScopeId) && b in c.bindings
    ensures b in d.bindings
    ensures HasEnds(c, b) <==> HasEnds(d, b)
    ensures LinkComplaint(c, b, code) ==> LinkComplaint(d, b, code)
  {
    SameSymmetric(c, d);
    BindingsSame(c, d);
    if HasEnds(c, b) {
      HasEndsForgets(c, d, b);
    }
    if HasEnds(d, b) {
      HasEndsForgets(d, c, b);
    }
    if LinkComplaint(c, b, code) {
      LinkComplaintForgets(c, d, b, code);
    }
  }

  lemma LaterForgets(c: Composition, d: Composition)
    requires SameUpToOrder(c, d) && UniqueBy(c.scopes, ScopeId)
    ensures BindingsFit(c) <==> BindingsFit(d)
    ensures PortsFed(c) <==> PortsFed(d)
    ensures Dependencies(c) == Dependencies(d)
  {
    SameSymmetric(c, d);
    ScopesForget(c, d);
    DependenciesForget(c, d);
    if BindingsFit(c) { BindingsForget(c, d); }
    if BindingsFit(d) { BindingsForget(d, c); }
    if PortsFed(c) { PortsForget(c, d); }
    if PortsFed(d) { PortsForget(d, c); }
  }

  lemma UnknownForgets(c: Composition, d: Composition)
    requires SameUpToOrder(c, d) && Blames(c, UnknownScope)
    ensures Blames(d, UnknownScope)
  {
    SoundForgets(c, d);
    if ScopeTree(d.scopes) {
      var n :| n in c.nodes && !ScopeKnown(c, n.scope);
      var m := Counterpart(c.nodes, d.nodes, n);
      AtHomeForgets(c, d, n, m);
    }
  }

  lemma BlamesNodeForgets(c: Composition, d: Composition, code: Code)
    requires SameUpToOrder(c, d) && UniqueBy(c.scopes, ScopeId) && BlamesNode(c, code)
    ensures BlamesNode(d, code)
  {
    var n :| n in c.nodes && NodeBlamed(c, n, code);
    var m := Counterpart(c.nodes, d.nodes, n);
    NodeBlameForgets(c, d, n, m, code);
  }

  lemma BlamesBindingForgets(c: Composition, d: Composition, code: Code)
    requires SameUpToOrder(c, d) && UniqueBy(c.scopes, ScopeId) && BlamesBinding(c, code)
    ensures BlamesBinding(d, code)
  {
    if code == DuplicateBinding {
      SoundForgets(c, d);
    } else if code == InvalidEndpoint {
      var b :| b in c.bindings && !HasEnds(c, b);
      BindingBlameForgets(c, d, b, code);
    } else {
      var b :| b in c.bindings && LinkComplaint(c, b, code);
      BindingBlameForgets(c, d, b, code);
    }
  }

  lemma BlamedThenSound(c: Composition, code: Code)
    requires Blames(c, code) && !code.DuplicateScope?
    ensures UniqueBy(c.scopes, ScopeId)
  {
  }

  lemma BlameForgets(c: Composition, d: Composition, code: Code)
    requires SameUpToOrder(c, d) && Blames(c, code)
    ensures Blames(d, code)
  {
    SoundForgets(c, d);
    if !code.DuplicateScope? {
      BlamedThenSound(c, code);
      LaterForgets(c, d);
      if code.UnknownScope? {
        UnknownForgets(c, d);
      } else {
        if BlamesNode(c, code) {
          BlamesNodeForgets(c, d, code);
        }
        if BlamesBinding(c, code) {
          BlamesBindingForgets(c, d, code);
        }
      }
    }
  }

  lemma BlameComplains(p: Composition, code: Code)
    requires Blames(p, code) && code in {DuplicateNode, CardinalityMismatch, DependencyCycle}
    ensures Complains(p, code)
  {
  }

  /** Each code names a fault of the composition itself; three codes are given exactly when the fault is there. */
  lemma CodeBlames(c: Composition, fingerprint: Str, code: Code)
    ensures Check(c, fingerprint) == Err(code) ==> Blames(c, code)
    ensures code in {DuplicateNode, CardinalityMismatch, DependencyCycle} ==>
      (Check(c, fingerprint) == Err(code) <==> Blames(c, code))
  {
    var p := Proposed(c);
    CheckSays(c, fingerprint, code);
    SameSymmetric(c, p);
    if Check(c, fingerprint) == Err(code) {
      ComplaintBlames(p, code);
      BlameForgets(p, c, code);
    }
    if Blames(c, code) && code in {DuplicateNode, CardinalityMismatch, DependencyCycle} {
      BlameForgets(c, p, code);
      BlameComplains(p, code);
    }
  }
}
