/** The digest preimage: two proposals share it exactly when they are the same composition, reordered. */
module Digest {
  import opened Strings
  import opened Results
  import opened Json
  import opened Canonical
  import opened StrictJson
  import opened Composition
  import opened Wire
  import opened Proposal
  import opened LinkSpec
  import opened Linking
  import opened Reordering
  import opened Grammar
  import opened Orders
  import opened Scopes
  import Weights

  /* The whole proposal can be read back. */

  lemma Deeper(v: Json, depth: nat, more: nat)
    requires Prints(v, depth) && depth <= more
    ensures Prints(v, more)
  {
    FitsMore(v, depth, more);
  }

  /** An object one field longer, its new value no deeper than the rest may be. */
  lemma Grow(fields: map<Str, Json>, k: Id, v: Json, depth: nat, limit: nat)
    requires Prints(Object(fields), limit + 1) && Prints(v, depth) && depth <= limit
    ensures Prints(Object(fields[k := v]), limit + 1)
  {
    Deeper(v, depth, limit);
    FieldPrints(fields, k, v, limit);
  }

  lemma ScopePrints(s: Scope)
    ensures Prints(ScopeJson(s), 2)
  {
    NoFieldPrints(1);
    var m0: map<Str, Json> := map[];
    TextPrints(s.id, 0);
    Grow(m0, WORD_ID, Text(s.id), 0, 1);
    var m1 := m0[WORD_ID := Text(s.id)];
    LifetimePrints(s.lifetime);
    Grow(m1, WORD_LIFETIME, LifetimeJson(s.lifetime), 1, 1);
    assert ScopeJson(s).fields == m1[WORD_LIFETIME := LifetimeJson(s.lifetime)];
  }

  lemma CorePrints(anchor: Anchor)
    ensures Prints(IdentityJson(Core(anchor)), 2)
  {
    Object2Prints(WORD_KIND, WORD_CORE, WORD_ANCHOR, AnchorWord(anchor));
    Deeper(IdentityJson(Core(anchor)), 1, 2);
  }

  lemma PluginPrints(i: Identity)
    requires i.Plugin?
    ensures Prints(IdentityJson(i), 2)
  {
    NoFieldPrints(1);
    var m0: map<Str, Json> := map[];
    TextPrints(WORD_PLUGIN, 0);
    Grow(m0, WORD_KIND, Text(WORD_PLUGIN), 0, 1);
    var m1 := m0[WORD_KIND := Text(WORD_PLUGIN)];
    ReleasePrints(i.release);
    Grow(m1, WORD_RELEASE, ReleaseJson(i.release), 1, 1);
    var m2 := m1[WORD_RELEASE := ReleaseJson(i.release)];
    TextPrints(i.generation, 0);
    Grow(m2, WORD_GENERATION, Text(i.generation), 0, 1);
    var m3 := m2[WORD_GENERATION := Text(i.generation)];
    TextPrints(i.incarnation, 0);
    Grow(m3, WORD_INCARNATION, Text(i.incarnation), 0, 1);
    var m4 := m3[WORD_INCARNATION := Text(i.incarnation)];
    TextPrints(ExecutionWord(i.execution), 0);
    Grow(m4, WORD_EXECUTION, Text(ExecutionWord(i.execution)), 0, 1);
    assert IdentityJson(i).fields == m4[WORD_EXECUTION := Text(ExecutionWord(i.execution))];
  }

  lemma IdentityPrints(i: Identity)
    ensures Prints(IdentityJson(i), 2)
  {
    match i {
      case Core(anchor) => CorePrints(anchor);
      case Plugin(_, _, _, _) => PluginPrints(i);
    }
  }

  lemma OwnerPrints(o: Owner)
    ensures Prints(OwnerJson(o), 1)
  {
    match o {
      case ScopeOwner =>
        NoFieldPrints(0);
        TextPrints(WORD_SCOPE, 0);
        FieldPrints(map[], WORD_KIND, Text(WORD_SCOPE), 0);
        assert OwnerJson(o).fields == map[][WORD_KIND := Text(WORD_SCOPE)];
      case NodeOwner(node) =>
        assert WORD_KIND[0] == 0x6B && WORD_NODE[0] == 0x6E;
        Object2Prints(WORD_KIND, WORD_NODE, WORD_NODE, node);
    }
  }

  lemma ProvidedPrints(p: ProvidedPort)
    ensures Prints(ProvidedJson(p), 2)
  {
    NoFieldPrints(1);
    var m0: map<Str, Json> := map[];
    TextPrints(p.id, 0);
    Grow(m0, WORD_ID, Text(p.id), 0, 1);
    var m1 := m0[WORD_ID := Text(p.id)];
    ContractPrints(p.contract);
    Grow(m1, WORD_CONTRACT, ContractJson(p.contract), 1, 1);
    var m2 := m1[WORD_CONTRACT := ContractJson(p.contract)];
    TextPrints(VisibilityWord(p.visibility), 0);
    Grow(m2, WORD_VISIBILITY, Text(VisibilityWord(p.visibility)), 0, 1);
    var m3 := m2[WORD_VISIBILITY := Text(VisibilityWord(p.visibility))];
    TextPrints(TransportWord(p.transport), 0);
    Grow(m3, WORD_TRANSPORT, Text(TransportWord(p.transport)), 0, 1);
    assert ProvidedJson(p).fields == m3[WORD_TRANSPORT := Text(TransportWord(p.transport))];
  }

  lemma RequiredPrints(p: RequiredPort)
    ensures Prints(RequiredJson(p), 2)
  {
    NoFieldPrints(1);
    var m0: map<Str, Json> := map[];
    TextPrints(p.id, 0);
    Grow(m0, WORD_ID, Text(p.id), 0, 1);
    var m1 := m0[WORD_ID := Text(p.id)];
    ContractPrints(p.contract);
    Grow(m1, WORD_CONTRACT, ContractJson(p.contract), 1, 1);
    var m2 := m1[WORD_CONTRACT := ContractJson(p.contract)];
    TextPrints(CardinalityWord(p.cardinality), 0);
    Grow(m2, WORD_CARDINALITY, Text(CardinalityWord(p.cardinality)), 0, 1);
    assert RequiredJson(p).fields == m2[WORD_CARDINALITY := Text(CardinalityWord(p.cardinality))];
  }

  lemma PortsPrint(n: Node)
    ensures Prints(Array(ProvidesJson(n.provided)), 3) && Prints(Array(RequiresJson(n.required)), 3)
  {
    forall i | 0 <= i < |n.provided| ensures Prints(ProvidesJson(n.provided)[i], 2) {
      ProvidedPrints(n.provided[i]);
    }
    ArrayPrints(ProvidesJson(n.provided), 2);
    forall i | 0 <= i < |n.required| ensures Prints(RequiresJson(n.required)[i], 2) {
      RequiredPrints(n.required[i]);
    }
    ArrayPrints(RequiresJson(n.required), 2);
  }

  lemma NodePrints(n: Node)
    ensures Prints(NodeJson(n), 4)
  {
    NoFieldPrints(3);
    var m0: map<Str, Json> := map[];
    TextPrints(n.id, 0);
    Grow(m0, WORD_ID, Text(n.id), 0, 3);
    var m1 := m0[WORD_ID := Text(n.id)];
    TextPrints(n.scope, 0);
    Grow(m1, WORD_SCOPE, Text(n.scope), 0, 3);
    var m2 := m1[WORD_SCOPE := Text(n.scope)];
    SitePrints(n.site);
    Grow(m2, WORD_SITE, SiteJson(n.site), 1, 3);
    var m3 := m2[WORD_SITE := SiteJson(n.site)];
    IdentityPrints(n.identity);
    Grow(m3, WORD_IDENTITY, IdentityJson(n.identity), 2, 3);
    var m4 := m3[WORD_IDENTITY := IdentityJson(n.identity)];
    OwnerPrints(n.owner);
    Grow(m4, WORD_OWNER, OwnerJson(n.owner), 1, 3);
    var m5 := m4[WORD_OWNER := OwnerJson(n.owner)];
    PortsPrint(n);
    Grow(m5, WORD_PROVIDES, Array(ProvidesJson(n.provided)), 3, 3);
    var m6 := m5[WORD_PROVIDES := Array(ProvidesJson(n.provided))];
    Grow(m6, WORD_REQUIRES, Array(RequiresJson(n.required)), 3, 3);
    assert NodeJson(n).fields == m6[WORD_REQUIRES := Array(RequiresJson(n.required))];
  }

  lemma BindingPrints(b: Binding)
    ensures Prints(BindingJson(b), 2)
  {
    NoFieldPrints(1);
    var m0: map<Str, Json> := map[];
    EndpointPrints(b.consumer);
    Grow(m0, WORD_CONSUMER, EndpointJson(b.consumer), 1, 1);
    var m1 := m0[WORD_CONSUMER := EndpointJson(b.consumer)];
    EndpointPrints(b.provider);
    Grow(m1, WORD_PROVIDER, EndpointJson(b.provider), 1, 1);
    var m2 := m1[WORD_PROVIDER := EndpointJson(b.provider)];
    TextPrints(b.revision, 0);
    Grow(m2, WORD_REVISION, Text(b.revision), 0, 1);
    assert BindingJson(b).fields == m2[WORD_REVISION := Text(b.revision)];
  }

  lemma ListsPrint(c: Composition)
    ensures Prints(Array(ScopesJson(c.scopes)), 5) && Prints(Array(NodesJson(c.nodes)), 5)
    ensures Prints(Array(BindingsJson(c.bindings)), 5)
  {
    forall i | 0 <= i < |c.scopes| ensures Prints(ScopesJson(c.scopes)[i], 4) {
      ScopePrints(c.scopes[i]);
      Deeper(ScopeJson(c.scopes[i]), 2, 4);
    }
    ArrayPrints(ScopesJson(c.scopes), 4);
    forall i | 0 <= i < |c.nodes| ensures Prints(NodesJson(c.nodes)[i], 4) {
      NodePrints(c.nodes[i]);
    }
    ArrayPrints(NodesJson(c.nodes), 4);
    forall i | 0 <= i < |c.bindings| ensures Prints(BindingsJson(c.bindings)[i], 4) {
      BindingPrints(c.bindings[i]);
      Deeper(BindingJson(c.bindings[i]), 2, 4);
    }
    ArrayPrints(BindingsJson(c.bindings), 4);
  }

  lemma CompositionPrints(c: Composition)
    ensures Prints(CompositionJson(c), 6)
  {
    NoFieldPrints(5);
    var m0: map<Str, Json> := map[];
    TextPrints(FORMAT_V1, 0);
    Grow(m0, WORD_FORMAT, Text(FORMAT_V1), 0, 5);
    var m1 := m0[WORD_FORMAT := Text(FORMAT_V1)];
    ListsPrint(c);
    Grow(m1, WORD_SCOPES, Array(ScopesJson(c.scopes)), 5, 5);
    var m2 := m1[WORD_SCOPES := Array(ScopesJson(c.scopes))];
    Grow(m2, WORD_NODES, Array(NodesJson(c.nodes)), 5, 5);
    var m3 := m2[WORD_NODES := Array(NodesJson(c.nodes))];
    Grow(m3, WORD_BINDINGS, Array(BindingsJson(c.bindings)), 5, 5);
    assert CompositionJson(c).fields == m3[WORD_BINDINGS := Array(BindingsJson(c.bindings))];
  }

  /* Different proposals have different JSON. */

  lemma ScopeJsonInjective(a: Scope, b: Scope)
    requires ScopeJson(a) == ScopeJson(b)
    ensures a == b
  {
    var m, n := ScopeJson(a).fields, ScopeJson(b).fields;
    assert m[WORD_ID] == n[WORD_ID];
    assert m[WORD_LIFETIME] == n[WORD_LIFETIME];
    LifetimeJsonInjective(a.lifetime, b.lifetime);
  }

  lemma IdentityJsonInjective(a: Identity, b: Identity)
    requires IdentityJson(a) == IdentityJson(b)
    ensures a == b
  {
    var m, n := IdentityJson(a).fields, IdentityJson(b).fields;
    assert m[WORD_KIND] == n[WORD_KIND];
    assert |WORD_CORE| != |WORD_PLUGIN|;
    if a.Core? {
      assert m[WORD_ANCHOR] == n[WORD_ANCHOR];
      assert |WORD_COORDINATION| != |WORD_TELEMETRY_INGRESS| && |WORD_COORDINATION| != |WORD_CODE_CLIENT|;
      assert |WORD_TELEMETRY_INGRESS| != |WORD_CODE_CLIENT|;
    } else {
      assert m[WORD_RELEASE] == n[WORD_RELEASE] && m[WORD_GENERATION] == n[WORD_GENERATION];
      assert m[WORD_INCARNATION] == n[WORD_INCARNATION] && m[WORD_EXECUTION] == n[WORD_EXECUTION];
      assert |WORD_DATA| != |WORD_ISOLATED|;
      ReleaseJsonInjective(a.release, b.release);
    }
  }

  lemma OwnerJsonInjective(a: Owner, b: Owner)
    requires OwnerJson(a) == OwnerJson(b)
    ensures a == b
  {
    var m, n := OwnerJson(a).fields, OwnerJson(b).fields;
    assert m[WORD_KIND] == n[WORD_KIND];
    assert |WORD_SCOPE| != |WORD_NODE|;
    assert WORD_KIND[0] == 0x6B && WORD_NODE[0] == 0x6E;
    if a.NodeOwner? {
      assert m[WORD_NODE] == n[WORD_NODE];
    }
  }

  lemma ProvidedJsonInjective(a: ProvidedPort, b: ProvidedPort)
    requires ProvidedJson(a) == ProvidedJson(b)
    ensures a == b
  {
    var m, n := ProvidedJson(a).fields, ProvidedJson(b).fields;
    assert m[WORD_ID] == n[WORD_ID];
    assert m[WORD_CONTRACT] == n[WORD_CONTRACT];
    assert m[WORD_VISIBILITY] == n[WORD_VISIBILITY];
    assert m[WORD_TRANSPORT] == n[WORD_TRANSPORT];
    ContractJsonInjective(a.contract, b.contract);
    assert |WORD_SCOPE| != |WORD_DESCENDANTS| && |WORD_LOCAL| != |WORD_REMOTE|;
  }

  lemma RequiredJsonInjective(a: RequiredPort, b: RequiredPort)
    requires RequiredJson(a) == RequiredJson(b)
    ensures a == b
  {
    var m, n := RequiredJson(a).fields, RequiredJson(b).fields;
    assert m[WORD_ID] == n[WORD_ID];
    assert m[WORD_CONTRACT] == n[WORD_CONTRACT];
    assert m[WORD_CARDINALITY] == n[WORD_CARDINALITY];
    ContractJsonInjective(a.contract, b.contract);
    assert |WORD_ONE| != |WORD_OPTIONAL| && |WORD_MANY| != |WORD_OPTIONAL| && |WORD_ONE| != |WORD_MANY|;
  }

  lemma PortsJsonInjective(a: Node, b: Node)
    requires ProvidesJson(a.provided) == ProvidesJson(b.provided)
    requires RequiresJson(a.required) == RequiresJson(b.required)
    ensures a.provided == b.provided && a.required == b.required
  {
    assert |ProvidesJson(a.provided)| == |ProvidesJson(b.provided)|;
    forall i | 0 <= i < |a.provided| ensures a.provided[i] == b.provided[i] {
      assert ProvidesJson(a.provided)[i] == ProvidesJson(b.provided)[i];
      ProvidedJsonInjective(a.provided[i], b.provided[i]);
    }
    assert |RequiresJson(a.required)| == |RequiresJson(b.required)|;
    forall i | 0 <= i < |a.required| ensures a.required[i] == b.required[i] {
      assert RequiresJson(a.required)[i] == RequiresJson(b.required)[i];
      RequiredJsonInjective(a.required[i], b.required[i]);
    }
  }

  lemma NodeWords()
    ensures WORD_SCOPE != WORD_OWNER && WORD_IDENTITY != WORD_PROVIDES && WORD_IDENTITY != WORD_REQUIRES
    ensures WORD_PROVIDES != WORD_REQUIRES
  {
    assert WORD_SCOPE[0] == 0x73 && WORD_OWNER[0] == 0x6F;
    assert WORD_IDENTITY[0] == 0x69 && WORD_PROVIDES[0] == 0x70 && WORD_REQUIRES[0] == 0x72;
  }

  lemma NodeJsonInjective(a: Node, b: Node)
    requires NodeJson(a) == NodeJson(b)
    ensures a == b
  {
    var m, n := NodeJson(a).fields, NodeJson(b).fields;
    NodeWords();
    assert m[WORD_ID] == n[WORD_ID];
    assert m[WORD_SCOPE] == n[WORD_SCOPE];
    assert m[WORD_SITE] == n[WORD_SITE];
    assert m[WORD_IDENTITY] == n[WORD_IDENTITY];
    assert m[WORD_OWNER] == n[WORD_OWNER];
    assert m[WORD_PROVIDES] == n[WORD_PROVIDES];
    assert m[WORD_REQUIRES] == n[WORD_REQUIRES];
    SiteJsonInjective(a.site, b.site);
    IdentityJsonInjective(a.identity, b.identity);
    OwnerJsonInjective(a.owner, b.owner);
    PortsJsonInjective(a, b);
  }

  lemma BindingWords()
    ensures WORD_CONSUMER != WORD_PROVIDER && WORD_CONSUMER != WORD_REVISION && WORD_PROVIDER != WORD_REVISION
  {
    assert WORD_CONSUMER[0] == 0x63 && WORD_PROVIDER[0] == 0x70 && WORD_REVISION[0] == 0x72;
  }

  lemma BindingJsonInjective(a: Binding, b: Binding)
    requires BindingJson(a) == BindingJson(b)
    ensures a == b
  {
    var m, n := BindingJson(a).fields, BindingJson(b).fields;
    BindingWords();
    assert m[WORD_CONSUMER] == n[WORD_CONSUMER];
    assert m[WORD_PROVIDER] == n[WORD_PROVIDER];
    assert m[WORD_REVISION] == n[WORD_REVISION];
    EndpointJsonInjective(a.consumer, b.consumer);
    EndpointJsonInjective(a.provider, b.provider);
  }

  lemma ListsJsonInjective(a: Composition, b: Composition)
    requires ScopesJson(a.scopes) == ScopesJson(b.scopes) && NodesJson(a.nodes) == NodesJson(b.nodes)
    requires BindingsJson(a.bindings) == BindingsJson(b.bindings)
    ensures a == b
  {
    assert |ScopesJson(a.scopes)| == |ScopesJson(b.scopes)| && |NodesJson(a.nodes)| == |NodesJson(b.nodes)|;
    assert |BindingsJson(a.bindings)| == |BindingsJson(b.bindings)|;
    forall i | 0 <= i < |a.scopes| ensures a.scopes[i] == b.scopes[i] {
      assert ScopesJson(a.scopes)[i] == ScopesJson(b.scopes)[i];
      ScopeJsonInjective(a.scopes[i], b.scopes[i]);
    }
    forall i | 0 <= i < |a.nodes| ensures a.nodes[i] == b.nodes[i] {
      assert NodesJson(a.nodes)[i] == NodesJson(b.nodes)[i];
      NodeJsonInjective(a.nodes[i], b.nodes[i]);
    }
    forall i | 0 <= i < |a.bindings| ensures a.bindings[i] == b.bindings[i] {
      assert BindingsJson(a.bindings)[i] == BindingsJson(b.bindings)[i];
      BindingJsonInjective(a.bindings[i], b.bindings[i]);
    }
  }

  lemma CompositionJsonInjective(a: Composition, b: Composition)
    requires CompositionJson(a) == CompositionJson(b)
    ensures a == b
  {
    var m, n := CompositionJson(a).fields, CompositionJson(b).fields;
    assert WORD_FORMAT[0] == 0x66 && WORD_SCOPES[0] == 0x73;
    assert m[WORD_SCOPES] == n[WORD_SCOPES] && m[WORD_NODES] == n[WORD_NODES] && m[WORD_BINDINGS] == n[WORD_BINDINGS];
    ListsJsonInjective(a, b);
  }

  lemma PreimageInjective(p: Composition, q: Composition, fingerprint: Str)
    ensures Preimage(fingerprint, p) == Preimage(fingerprint, q) <==> p == q
  {
    var head := PREFIX + fingerprint + [0x0A];
    var s, t := Canonical.Canonical(CompositionJson(p)), Canonical.Canonical(CompositionJson(q));
    if head + s == head + t {
      assert s == (head + s)[|head|..] && t == (head + t)[|head|..];
      CompositionPrints(p);
      CompositionPrints(q);
      CanonicalInjective(CompositionJson(p), CompositionJson(q), 6);
      CompositionJsonInjective(p, q);
    }
  }

  /** Two accepted compositions have one digest preimage exactly when they differ in order alone. */
  lemma DigestIff(c: Composition, d: Composition, fingerprint: Str)
    requires Check(c, fingerprint).Ok? && Check(d, fingerprint).Ok?
    ensures Check(c, fingerprint).value.preimage == Check(d, fingerprint).value.preimage <==> SameUpToOrder(c, d)
  {
    ProposedSame(c);
    ProposedSame(d);
    OutcomeReports(Proposed(c), fingerprint, Check(c, fingerprint).value);
    OutcomeReports(Proposed(d), fingerprint, Check(d, fingerprint).value);
    PreimageInjective(Proposed(c), Proposed(d), fingerprint);
    if SameUpToOrder(c, d) {
      CheckForgetsOrder(c, d, fingerprint);
    }
  }

  /** Bytes and nesting the profile admits. */
  const PROFILE_BYTES: int := 1048576
  const PROFILE_DEPTH: int := 32

  lemma ReadsBackIff(c: Composition)
    ensures Decode(Canonical.Canonical(CompositionJson(c)), PROFILE_BYTES, PROFILE_DEPTH) == Some(CompositionJson(c))
      <==> Utf8Length(Canonical.Canonical(CompositionJson(c))) <= PROFILE_BYTES
  {
    CompositionPrints(c);
    FitsMore(CompositionJson(c), 6, PROFILE_DEPTH);
    PrintParses(CompositionJson(c), PROFILE_BYTES, PROFILE_DEPTH);
  }

  /* Sorting leaves the weight of a composition. */

  /** `items` are the records of `s` in JSON. */
  ghost predicate Renders<T>(items: seq<Json>, s: seq<T>, render: T -> Json) {
    |items| == |s| && forall i :: 0 <= i < |s| ==> items[i] == render(s[i])
  }

  lemma {:induction false} RenderedMultiset<T>(a: seq<Json>, s: seq<T>, b: seq<Json>, t: seq<T>, render: T -> Json)
    requires Renders(a, s, render) && Renders(b, t, render) && multiset(s) == multiset(t)
    ensures multiset(a) == multiset(b)
  {
    assert |multiset(s)| == |s| && |multiset(t)| == |t|;
    if s != [] {
      assert s[0] in multiset(t);
      var j: nat :| j < |t| && t[j] == s[0];
      Weights.TakenOut(s, t, j);
      Weights.TakenOut(a, b, j);
      RenderedMultiset(a[1..], s[1..], b[..j] + b[j + 1..], t[..j] + t[j + 1..], render);
    }
  }

  lemma SortedWeight<T>(a: seq<Json>, s: seq<T>, b: seq<Json>, t: seq<T>, render: T -> Json)
    requires Renders(a, s, render) && Renders(b, t, render) && multiset(s) == multiset(t)
    ensures Weights.Weight(Array(a)) == Weights.Weight(Array(b))
  {
    RenderedMultiset(a, s, b, t, render);
    assert |multiset(a)| == |a| && |multiset(b)| == |b|;
    Weights.ItemsReordered(a, b);
  }

  lemma SortedNodeWeight(n: Node)
    ensures Weights.Weight(NodeJson(SortPorts(n))) == Weights.Weight(NodeJson(n))
  {
    var m := SortPorts(n);
    ById(CompareProvided, ProvidedId);
    SortSorts(n.provided, CompareProvided);
    SortedWeight(ProvidesJson(m.provided), m.provided, ProvidesJson(n.provided), n.provided, ProvidedJson);
    ById(CompareRequired, RequiredId);
    SortSorts(n.required, CompareRequired);
    SortedWeight(RequiresJson(m.required), m.required, RequiresJson(n.required), n.required, RequiredJson);
    SameFieldsWeight(NodeJson(m), NodeJson(n));
  }

  /** Objects whose fields differ at most between equally heavy values. */
  lemma SameFieldsWeight(v: Json, w: Json)
    requires v.Object? && w.Object? && v.fields.Keys == w.fields.Keys
    requires forall k :: k in v.fields ==>
      v.fields[k] == w.fields[k] || Weights.Weight(v.fields[k]) == Weights.Weight(w.fields[k])
    ensures Weights.Weight(v) == Weights.Weight(w)
  {
    Weights.ObjectSame(v, w);
  }

  lemma SortedNodesWeight(ns: seq<Node>)
    ensures
      var sorted := Sort(SortAllPorts(ns), CompareNodes);
      Weights.Weight(Array(NodesJson(sorted))) == Weights.Weight(Array(NodesJson(ns)))
  {
    var ordered := SortAllPorts(ns);
    var sorted := Sort(ordered, CompareNodes);
    ById(CompareNodes, NodeId);
    SortSorts(ordered, CompareNodes);
    SortedWeight(NodesJson(sorted), sorted, NodesJson(ordered), ordered, NodeJson);
    forall i: nat | i < |ns|
      ensures Weights.Weight(NodesJson(ordered)[i]) == Weights.Weight(NodesJson(ns)[i])
    {
      SortedNodeWeight(ns[i]);
    }
    Weights.ItemsSame(NodesJson(ordered), NodesJson(ns));
  }

  lemma SortedScopesWeight(ss: seq<Scope>)
    ensures Weights.Weight(Array(ScopesJson(Sort(ss, CompareScopes)))) == Weights.Weight(Array(ScopesJson(ss)))
  {
    ById(CompareScopes, ScopeId);
    SortSorts(ss, CompareScopes);
    SortedWeight(ScopesJson(Sort(ss, CompareScopes)), Sort(ss, CompareScopes), ScopesJson(ss), ss, ScopeJson);
  }

  lemma SortedBindingsWeight(bs: seq<Binding>)
    ensures Weights.Weight(Array(BindingsJson(Sort(bs, CompareBindings)))) == Weights.Weight(Array(BindingsJson(bs)))
  {
    BindingsOrdered();
    SortSorts(bs, CompareBindings);
    SortedWeight(BindingsJson(Sort(bs, CompareBindings)), Sort(bs, CompareBindings), BindingsJson(bs), bs, BindingJson);
  }

  lemma ProposedWeight(c: Composition)
    ensures Weights.Weight(CompositionJson(Proposed(c))) == Weights.Weight(CompositionJson(c))
  {
    SortedScopesWeight(c.scopes);
    SortedNodesWeight(c.nodes);
    SortedBindingsWeight(c.bindings);
    SameFieldsWeight(CompositionJson(Proposed(c)), CompositionJson(c));
  }

  /**
   * The text that is digested reads back as the proposal: sorting keeps its length, and no text that decodes to the
   * composition is shorter than its canonical form.
   */
  lemma ProposalReadsBack(raw: Str, c: Composition)
    requires Decode(raw, PROFILE_BYTES, PROFILE_DEPTH) == Some(CompositionJson(c))
    ensures
      var p := CompositionJson(Proposed(c));
      Decode(Canonical.Canonical(p), PROFILE_BYTES, PROFILE_DEPTH) == Some(p)
  {
    var v, p := CompositionJson(c), CompositionJson(Proposed(c));
    DecodeIff(raw, PROFILE_BYTES, PROFILE_DEPTH, v);
    var before, t, after :| Spells(raw, PROFILE_DEPTH, before, t, after) && TreeValue(t) == v;
    CompositionPrints(c);
    Weights.TreeHeavy(t);
    Utf8AtLeast(raw);
    ProposedWeight(c);
    CompositionPrints(Proposed(c));
    Weights.CanonicalWeight(p);
    Weights.AsciiBytes(Canonical.Canonical(p));
    ReadsBackIff(Proposed(c));
  }
}
