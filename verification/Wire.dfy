/** The JSON form of composition records, and the proof that it loses nothing. */
module Wire {
  import opened Strings
  import opened Json
  import opened Canonical
  import opened Composition
  import Weights

  const WORD_KIND: Id := [0x6B, 0x69, 0x6E, 0x64] // kind
  const WORD_SERVICE_ID: Id := [0x73, 0x65, 0x72, 0x76, 0x69, 0x63, 0x65, 0x5F, 0x69, 0x64] // service_id
  const WORD_MACHINE_ID: Id := [0x6D, 0x61, 0x63, 0x68, 0x69, 0x6E, 0x65, 0x5F, 0x69, 0x64] // machine_id
  // workspace_id
  const WORD_WORKSPACE_ID: Id := [0x77, 0x6F, 0x72, 0x6B, 0x73, 0x70, 0x61, 0x63, 0x65, 0x5F, 0x69, 0x64]
  const WORD_SESSION_ID: Id := [0x73, 0x65, 0x73, 0x73, 0x69, 0x6F, 0x6E, 0x5F, 0x69, 0x64] // session_id
  // operation_id
  const WORD_OPERATION_ID: Id := [0x6F, 0x70, 0x65, 0x72, 0x61, 0x74, 0x69, 0x6F, 0x6E, 0x5F, 0x69, 0x64]
  const WORD_PARENT: Id := [0x70, 0x61, 0x72, 0x65, 0x6E, 0x74] // parent
  const WORD_ID: Id := [0x69, 0x64] // id
  const WORD_LIFETIME: Id := [0x6C, 0x69, 0x66, 0x65, 0x74, 0x69, 0x6D, 0x65] // lifetime
  const WORD_PLUGIN_ID: Id := [0x70, 0x6C, 0x75, 0x67, 0x69, 0x6E, 0x5F, 0x69, 0x64] // plugin_id
  const WORD_VERSION: Id := [0x76, 0x65, 0x72, 0x73, 0x69, 0x6F, 0x6E] // version
  const WORD_DIGEST: Id := [0x64, 0x69, 0x67, 0x65, 0x73, 0x74] // digest
  const WORD_PUBLISHER: Id := [0x70, 0x75, 0x62, 0x6C, 0x69, 0x73, 0x68, 0x65, 0x72] // publisher
  const WORD_ANCHOR: Id := [0x61, 0x6E, 0x63, 0x68, 0x6F, 0x72] // anchor
  const WORD_RELEASE: Id := [0x72, 0x65, 0x6C, 0x65, 0x61, 0x73, 0x65] // release
  const WORD_GENERATION: Id := [0x67, 0x65, 0x6E, 0x65, 0x72, 0x61, 0x74, 0x69, 0x6F, 0x6E] // generation
  const WORD_INCARNATION: Id := [0x69, 0x6E, 0x63, 0x61, 0x72, 0x6E, 0x61, 0x74, 0x69, 0x6F, 0x6E] // incarnation
  const WORD_EXECUTION: Id := [0x65, 0x78, 0x65, 0x63, 0x75, 0x74, 0x69, 0x6F, 0x6E] // execution
  const WORD_NODE: Id := [0x6E, 0x6F, 0x64, 0x65] // node
  const WORD_CONTRACT: Id := [0x63, 0x6F, 0x6E, 0x74, 0x72, 0x61, 0x63, 0x74] // contract
  const WORD_FINGERPRINT: Id := [0x66, 0x69, 0x6E, 0x67, 0x65, 0x72, 0x70, 0x72, 0x69, 0x6E, 0x74] // fingerprint
  const WORD_VISIBILITY: Id := [0x76, 0x69, 0x73, 0x69, 0x62, 0x69, 0x6C, 0x69, 0x74, 0x79] // visibility
  const WORD_TRANSPORT: Id := [0x74, 0x72, 0x61, 0x6E, 0x73, 0x70, 0x6F, 0x72, 0x74] // transport
  const WORD_CARDINALITY: Id := [0x63, 0x61, 0x72, 0x64, 0x69, 0x6E, 0x61, 0x6C, 0x69, 0x74, 0x79] // cardinality
  const WORD_SCOPE: Id := [0x73, 0x63, 0x6F, 0x70, 0x65] // scope
  const WORD_SITE: Id := [0x73, 0x69, 0x74, 0x65] // site
  const WORD_IDENTITY: Id := [0x69, 0x64, 0x65, 0x6E, 0x74, 0x69, 0x74, 0x79] // identity
  const WORD_OWNER: Id := [0x6F, 0x77, 0x6E, 0x65, 0x72] // owner
  const WORD_PROVIDES: Id := [0x70, 0x72, 0x6F, 0x76, 0x69, 0x64, 0x65, 0x73] // provides
  const WORD_REQUIRES: Id := [0x72, 0x65, 0x71, 0x75, 0x69, 0x72, 0x65, 0x73] // requires
  const WORD_PORT: Id := [0x70, 0x6F, 0x72, 0x74] // port
  const WORD_CONSUMER: Id := [0x63, 0x6F, 0x6E, 0x73, 0x75, 0x6D, 0x65, 0x72] // consumer
  const WORD_PROVIDER: Id := [0x70, 0x72, 0x6F, 0x76, 0x69, 0x64, 0x65, 0x72] // provider
  const WORD_REVISION: Id := [0x72, 0x65, 0x76, 0x69, 0x73, 0x69, 0x6F, 0x6E] // revision
  const WORD_FORMAT: Id := [0x66, 0x6F, 0x72, 0x6D, 0x61, 0x74] // format
  const WORD_SCOPES: Id := [0x73, 0x63, 0x6F, 0x70, 0x65, 0x73] // scopes
  const WORD_NODES: Id := [0x6E, 0x6F, 0x64, 0x65, 0x73] // nodes
  const WORD_BINDINGS: Id := [0x62, 0x69, 0x6E, 0x64, 0x69, 0x6E, 0x67, 0x73] // bindings
  const WORD_SERVICE: Id := [0x73, 0x65, 0x72, 0x76, 0x69, 0x63, 0x65] // service
  const WORD_MACHINE: Id := [0x6D, 0x61, 0x63, 0x68, 0x69, 0x6E, 0x65] // machine
  const WORD_WORKSPACE: Id := [0x77, 0x6F, 0x72, 0x6B, 0x73, 0x70, 0x61, 0x63, 0x65] // workspace
  const WORD_SESSION: Id := [0x73, 0x65, 0x73, 0x73, 0x69, 0x6F, 0x6E] // session
  const WORD_OPERATION: Id := [0x6F, 0x70, 0x65, 0x72, 0x61, 0x74, 0x69, 0x6F, 0x6E] // operation
  const WORD_CORE: Id := [0x63, 0x6F, 0x72, 0x65] // core
  const WORD_PLUGIN: Id := [0x70, 0x6C, 0x75, 0x67, 0x69, 0x6E] // plugin
  // coordination
  const WORD_COORDINATION: Id := [0x63, 0x6F, 0x6F, 0x72, 0x64, 0x69, 0x6E, 0x61, 0x74, 0x69, 0x6F, 0x6E]
  // telemetry_ingress
  const WORD_TELEMETRY_INGRESS: Id := [0x74, 0x65, 0x6C, 0x65, 0x6D, 0x65, 0x74, 0x72, 0x79, 0x5F, 0x69, 0x6E, 0x67,
                                       0x72, 0x65, 0x73, 0x73]
  const WORD_CODE_CLIENT: Id := [0x63, 0x6F, 0x64, 0x65, 0x5F, 0x63, 0x6C, 0x69, 0x65, 0x6E, 0x74] // code_client
  const WORD_DATA: Id := [0x64, 0x61, 0x74, 0x61] // data
  const WORD_ISOLATED: Id := [0x69, 0x73, 0x6F, 0x6C, 0x61, 0x74, 0x65, 0x64] // isolated
  const WORD_DESCENDANTS: Id := [0x64, 0x65, 0x73, 0x63, 0x65, 0x6E, 0x64, 0x61, 0x6E, 0x74, 0x73] // descendants
  const WORD_LOCAL: Id := [0x6C, 0x6F, 0x63, 0x61, 0x6C] // local
  const WORD_REMOTE: Id := [0x72, 0x65, 0x6D, 0x6F, 0x74, 0x65] // remote
  const WORD_ONE: Id := [0x6F, 0x6E, 0x65] // one
  const WORD_OPTIONAL: Id := [0x6F, 0x70, 0x74, 0x69, 0x6F, 0x6E, 0x61, 0x6C] // optional
  const WORD_MANY: Id := [0x6D, 0x61, 0x6E, 0x79] // many
  // cowboy.composition.v1
  const FORMAT_V1: Id := [0x63, 0x6F, 0x77, 0x62, 0x6F, 0x79, 0x2E, 0x63, 0x6F, 0x6D, 0x70, 0x6F, 0x73, 0x69, 0x74,
                          0x69, 0x6F, 0x6E, 0x2E, 0x76, 0x31]

  function LifetimeJson(l: Lifetime): Json {
    match l
    case Service(id) => Object(map[WORD_KIND := Text(WORD_SERVICE), WORD_SERVICE_ID := Text(id)])
    case Machine(parent, id) =>
      Object(map[WORD_KIND := Text(WORD_MACHINE), WORD_PARENT := Text(parent), WORD_MACHINE_ID := Text(id)])
    case Workspace(parent, id) =>
      Object(map[WORD_KIND := Text(WORD_WORKSPACE), WORD_PARENT := Text(parent), WORD_WORKSPACE_ID := Text(id)])
    case Session(parent, id) =>
      Object(map[WORD_KIND := Text(WORD_SESSION), WORD_PARENT := Text(parent), WORD_SESSION_ID := Text(id)])
    case Operation(parent, id) =>
      Object(map[WORD_KIND := Text(WORD_OPERATION), WORD_PARENT := Text(parent), WORD_OPERATION_ID := Text(id)])
  }

  function ScopeJson(s: Scope): Json {
    Object(map[WORD_ID := Text(s.id), WORD_LIFETIME := LifetimeJson(s.lifetime)])
  }

  function SiteJson(s: Site): Json {
    match s
    case ServiceSite(id) => Object(map[WORD_KIND := Text(WORD_SERVICE), WORD_SERVICE_ID := Text(id)])
    case MachineSite(id, machine) =>
      Object(map[WORD_KIND := Text(WORD_MACHINE), WORD_SERVICE_ID := Text(id), WORD_MACHINE_ID := Text(machine)])
  }

  function ReleaseJson(r: Release): Json {
    Object(map[
      WORD_PLUGIN_ID := Text(r.pluginId), WORD_VERSION := Text(r.version),
      WORD_DIGEST := Text(r.digest), WORD_PUBLISHER := Text(r.publisher)])
  }

  function AnchorWord(a: Anchor): Id {
    match a
    case Coordination => WORD_COORDINATION
    case TelemetryIngress => WORD_TELEMETRY_INGRESS
    case CodeClient => WORD_CODE_CLIENT
  }

  function ExecutionWord(e: Execution): Id {
    match e
    case Data => WORD_DATA
    case Isolated => WORD_ISOLATED
  }

  function IdentityJson(i: Identity): Json {
    match i
    case Core(anchor) => Object(map[WORD_KIND := Text(WORD_CORE), WORD_ANCHOR := Text(AnchorWord(anchor))])
    case Plugin(release, generation, incarnation, execution) =>
      Object(map[
        WORD_KIND := Text(WORD_PLUGIN), WORD_RELEASE := ReleaseJson(release), WORD_GENERATION := Text(generation),
        WORD_INCARNATION := Text(incarnation), WORD_EXECUTION := Text(ExecutionWord(execution))])
  }

  function OwnerJson(o: Owner): Json {
    match o
    case ScopeOwner => Object(map[WORD_KIND := Text(WORD_SCOPE)])
    case NodeOwner(node) => Object(map[WORD_KIND := Text(WORD_NODE), WORD_NODE := Text(node)])
  }

  function ContractJson(c: Contract): Json {
    Object(map[WORD_ID := Text(c.id), WORD_VERSION := Text(c.version), WORD_FINGERPRINT := Text(c.fingerprint)])
  }

  function VisibilityWord(v: Visibility): Id {
    match v
    case ScopeOnly => WORD_SCOPE
    case Descendants => WORD_DESCENDANTS
  }

  function TransportWord(t: Transport): Id {
    match t
    case Local => WORD_LOCAL
    case Remote => WORD_REMOTE
  }

  function CardinalityWord(c: Cardinality): Id {
    match c
    case One => WORD_ONE
    case Optional => WORD_OPTIONAL
    case Many => WORD_MANY
  }

  function ProvidedJson(p: ProvidedPort): Json {
    Object(map[
      WORD_ID := Text(p.id), WORD_CONTRACT := ContractJson(p.contract),
      WORD_VISIBILITY := Text(VisibilityWord(p.visibility)), WORD_TRANSPORT := Text(TransportWord(p.transport))])
  }

  function RequiredJson(p: RequiredPort): Json {
    Object(map[
      WORD_ID := Text(p.id), WORD_CONTRACT := ContractJson(p.contract),
      WORD_CARDINALITY := Text(CardinalityWord(p.cardinality))])
  }

  function ProvidesJson(ps: seq<ProvidedPort>): seq<Json> {
    seq(|ps|, i requires 0 <= i < |ps| => ProvidedJson(ps[i]))
  }

  function RequiresJson(ps: seq<RequiredPort>): seq<Json> {
    seq(|ps|, i requires 0 <= i < |ps| => RequiredJson(ps[i]))
  }

  function NodeJson(n: Node): Json {
    Object(map[
      WORD_ID := Text(n.id), WORD_SCOPE := Text(n.scope), WORD_SITE := SiteJson(n.site),
      WORD_IDENTITY := IdentityJson(n.identity), WORD_OWNER := OwnerJson(n.owner),
      WORD_PROVIDES := Array(ProvidesJson(n.provided)), WORD_REQUIRES := Array(RequiresJson(n.required))])
  }

  function EndpointJson(e: Endpoint): Json {
    Object(map[WORD_NODE := Text(e.node), WORD_PORT := Text(e.port)])
  }

  function BindingJson(b: Binding): Json {
    Object(map[
      WORD_CONSUMER := EndpointJson(b.consumer), WORD_PROVIDER := EndpointJson(b.provider),
      WORD_REVISION := Text(b.revision)])
  }

  function ScopesJson(ss: seq<Scope>): seq<Json> {
    seq(|ss|, i requires 0 <= i < |ss| => ScopeJson(ss[i]))
  }

  function NodesJson(ns: seq<Node>): seq<Json> {
    seq(|ns|, i requires 0 <= i < |ns| => NodeJson(ns[i]))
  }

  function BindingsJson(bs: seq<Binding>): seq<Json> {
    seq(|bs|, i requires 0 <= i < |bs| => BindingJson(bs[i]))
  }

  function CompositionJson(c: Composition): Json {
    Object(map[
      WORD_FORMAT := Text(FORMAT_V1), WORD_SCOPES := Array(ScopesJson(c.scopes)),
      WORD_NODES := Array(NodesJson(c.nodes)), WORD_BINDINGS := Array(BindingsJson(c.bindings))])
  }

  /* Everything printed is ASCII, so everything printed can be read back. */

  lemma {:induction false} AsciiWellFormed(s: Str)
    requires forall i :: 0 <= i < |s| ==> s[i] < 0x80
    ensures WellFormed(s)
  {
    if s != [] {
      AsciiWellFormed(s[1..]);
    }
  }

  /** `v` prints, in ASCII; an object does when its keys are words and its values print one level down. */
  ghost predicate Prints(v: Json, depth: int) {
    CanPrint(v) && Fits(v, depth) && Weights.AsciiJson(v)
  }

  lemma NoFieldPrints(depth: nat)
    ensures Prints(Object(map[]), depth + 1)
  {
  }

  lemma FieldPrints(fields: map<Str, Json>, k: Id, v: Json, depth: nat)
    requires Prints(Object(fields), depth + 1) && Prints(v, depth)
    ensures Prints(Object(fields[k := v]), depth + 1)
  {
    AsciiWellFormed(k);
  }

  lemma ArrayPrints(items: seq<Json>, depth: nat)
    requires forall i :: 0 <= i < |items| ==> Prints(items[i], depth)
    ensures Prints(Array(items), depth + 1)
  {
  }

  lemma TextPrints(s: Id, depth: nat)
    ensures Prints(Text(s), depth)
  {
    AsciiWellFormed(s);
  }

  /** Objects with identifiers for values, one per number of fields. */
  lemma Object2Prints(k0: Id, v0: Id, k1: Id, v1: Id)
    requires k0 != k1
    ensures Prints(Object(map[k0 := Text(v0), k1 := Text(v1)]), 1)
  {
    TextPrints(v0, 0);
    TextPrints(v1, 0);
    NoFieldPrints(0);
    FieldPrints(map[], k0, Text(v0), 0);
    FieldPrints(map[][k0 := Text(v0)], k1, Text(v1), 0);
    assert map[][k0 := Text(v0)][k1 := Text(v1)] == map[k0 := Text(v0), k1 := Text(v1)];
  }

  lemma Object3Prints(k0: Id, v0: Id, k1: Id, v1: Id, k2: Id, v2: Id)
    requires k0 != k1 && k0 != k2 && k1 != k2
    ensures Prints(Object(map[k0 := Text(v0), k1 := Text(v1), k2 := Text(v2)]), 1)
  {
    Object2Prints(k0, v0, k1, v1);
    TextPrints(v2, 0);
    var m := map[k0 := Text(v0), k1 := Text(v1)];
    FieldPrints(m, k2, Text(v2), 0);
    assert m[k2 := Text(v2)] == map[k0 := Text(v0), k1 := Text(v1), k2 := Text(v2)];
  }

  lemma LifetimePrints(l: Lifetime)
    ensures Prints(LifetimeJson(l), 1)
  {
    match l {
      case Service(id) => Object2Prints(WORD_KIND, WORD_SERVICE, WORD_SERVICE_ID, id);
      case Machine(parent, id) => Object3Prints(WORD_KIND, WORD_MACHINE, WORD_PARENT, parent, WORD_MACHINE_ID, id);
      case Workspace(parent, id) =>
        Object3Prints(WORD_KIND, WORD_WORKSPACE, WORD_PARENT, parent, WORD_WORKSPACE_ID, id);
      case Session(parent, id) => Object3Prints(WORD_KIND, WORD_SESSION, WORD_PARENT, parent, WORD_SESSION_ID, id);
      case Operation(parent, id) =>
        Object3Prints(WORD_KIND, WORD_OPERATION, WORD_PARENT, parent, WORD_OPERATION_ID, id);
    }
  }

  lemma SitePrints(s: Site)
    ensures Prints(SiteJson(s), 1)
  {
    match s {
      case ServiceSite(id) => Object2Prints(WORD_KIND, WORD_SERVICE, WORD_SERVICE_ID, id);
      case MachineSite(id, machine) =>
        Object3Prints(WORD_KIND, WORD_MACHINE, WORD_SERVICE_ID, id, WORD_MACHINE_ID, machine);
    }
  }

  lemma ReleasePrints(r: Release)
    ensures Prints(ReleaseJson(r), 1)
  {
    ReleaseWords();
    Object3Prints(WORD_PLUGIN_ID, r.pluginId, WORD_VERSION, r.version, WORD_DIGEST, r.digest);
    var m := map[WORD_PLUGIN_ID := Text(r.pluginId), WORD_VERSION := Text(r.version), WORD_DIGEST := Text(r.digest)];
    TextPrints(r.publisher, 0);
    FieldPrints(m, WORD_PUBLISHER, Text(r.publisher), 0);
    assert m[WORD_PUBLISHER := Text(r.publisher)] == ReleaseJson(r).fields;
  }

  lemma ReleaseWords()
    ensures WORD_PLUGIN_ID != WORD_PUBLISHER
  {
    assert WORD_PLUGIN_ID[1] == 0x6C && WORD_PUBLISHER[1] == 0x75;
  }

  lemma ContractPrints(c: Contract)
    ensures Prints(ContractJson(c), 1)
  {
    Object3Prints(WORD_ID, c.id, WORD_VERSION, c.version, WORD_FINGERPRINT, c.fingerprint);
  }

  lemma EndpointPrints(e: Endpoint)
    ensures Prints(EndpointJson(e), 1)
  {
    assert WORD_NODE[0] == 0x6E && WORD_PORT[0] == 0x70;
    Object2Prints(WORD_NODE, e.node, WORD_PORT, e.port);
  }

  /* Different records have different JSON. */

  lemma LifetimeJsonInjective(a: Lifetime, b: Lifetime)
    ensures LifetimeJson(a) == LifetimeJson(b) <==> a == b
  {
    if LifetimeJson(a) == LifetimeJson(b) {
      var m, n := LifetimeJson(a).fields, LifetimeJson(b).fields;
      assert m[WORD_KIND] == n[WORD_KIND];
      KindWords();
      match a {
        case Service(id) => assert m[WORD_SERVICE_ID] == n[WORD_SERVICE_ID];
        case Machine(parent, id) => assert m[WORD_PARENT] == n[WORD_PARENT] && m[WORD_MACHINE_ID] == n[WORD_MACHINE_ID];
        case Workspace(parent, id) => assert m[WORD_PARENT] == n[WORD_PARENT]
          && m[WORD_WORKSPACE_ID] == n[WORD_WORKSPACE_ID];
        case Session(parent, id) => assert m[WORD_PARENT] == n[WORD_PARENT] && m[WORD_SESSION_ID] == n[WORD_SESSION_ID];
        case Operation(parent, id) => assert m[WORD_PARENT] == n[WORD_PARENT]
          && m[WORD_OPERATION_ID] == n[WORD_OPERATION_ID];
      }
    }
  }

  lemma KindWords()
    ensures WORD_SERVICE != WORD_MACHINE && WORD_SERVICE != WORD_WORKSPACE && WORD_SERVICE != WORD_SESSION
    ensures WORD_SERVICE != WORD_OPERATION && WORD_MACHINE != WORD_WORKSPACE && WORD_MACHINE != WORD_SESSION
    ensures WORD_MACHINE != WORD_OPERATION && WORD_WORKSPACE != WORD_SESSION && WORD_WORKSPACE != WORD_OPERATION
    ensures WORD_SESSION != WORD_OPERATION
  {
    assert WORD_SERVICE[2] == 0x72 && WORD_SESSION[2] == 0x73;
    assert WORD_WORKSPACE[0] == 0x77 && WORD_OPERATION[0] == 0x6F;
  }

  lemma SiteJsonInjective(a: Site, b: Site)
    ensures SiteJson(a) == SiteJson(b) <==> a == b
  {
    if SiteJson(a) == SiteJson(b) {
      var m, n := SiteJson(a).fields, SiteJson(b).fields;
      assert m[WORD_KIND] == n[WORD_KIND];
      KindWords();
      assert m[WORD_SERVICE_ID] == n[WORD_SERVICE_ID];
      if a.MachineSite? {
        assert m[WORD_MACHINE_ID] == n[WORD_MACHINE_ID];
      }
    }
  }

  lemma ReleaseJsonInjective(a: Release, b: Release)
    ensures ReleaseJson(a) == ReleaseJson(b) <==> a == b
  {
    if ReleaseJson(a) == ReleaseJson(b) {
      var m, n := ReleaseJson(a).fields, ReleaseJson(b).fields;
      ReleaseWords();
      assert m[WORD_PLUGIN_ID] == n[WORD_PLUGIN_ID] && m[WORD_VERSION] == n[WORD_VERSION];
      assert m[WORD_DIGEST] == n[WORD_DIGEST] && m[WORD_PUBLISHER] == n[WORD_PUBLISHER];
    }
  }

  lemma ContractJsonInjective(a: Contract, b: Contract)
    ensures ContractJson(a) == ContractJson(b) <==> a == b
  {
    if ContractJson(a) == ContractJson(b) {
      var m, n := ContractJson(a).fields, ContractJson(b).fields;
      assert m[WORD_ID] == n[WORD_ID] && m[WORD_VERSION] == n[WORD_VERSION]
        && m[WORD_FINGERPRINT] == n[WORD_FINGERPRINT];
    }
  }

  lemma EndpointJsonInjective(a: Endpoint, b: Endpoint)
    ensures EndpointJson(a) == EndpointJson(b) <==> a == b
  {
    if EndpointJson(a) == EndpointJson(b) {
      var m, n := EndpointJson(a).fields, EndpointJson(b).fields;
      assert WORD_NODE[0] == 0x6E && WORD_PORT[0] == 0x70;
      assert m[WORD_NODE] == n[WORD_NODE] && m[WORD_PORT] == n[WORD_PORT];
    }
  }

  /* The string keys of the linker's maps stand for the records they are printed from. */

  function LifetimeKey(l: Lifetime): Str {
    Canonical.Canonical(LifetimeJson(l))
  }

  function SlotJson(site: Site, pluginId: Id, generation: Id): Json {
    Array([SiteJson(site), Text(pluginId), Text(generation)])
  }

  function SlotKey(site: Site, pluginId: Id, generation: Id): Str {
    Canonical.Canonical(SlotJson(site, pluginId, generation))
  }

  function ReleaseKey(r: Release): Str {
    Canonical.Canonical(ReleaseJson(r))
  }

  function EdgeJson(consumer: Endpoint, provider: Endpoint): Json {
    Array([EndpointJson(consumer), EndpointJson(provider)])
  }

  function EdgeKey(consumer: Endpoint, provider: Endpoint): Str {
    Canonical.Canonical(EdgeJson(consumer, provider))
  }

  function ContractKey(c: Contract): Str {
    Canonical.Canonical(ContractJson(c))
  }

  function PortKey(e: Endpoint): Str {
    Canonical.Canonical(EndpointJson(e))
  }

  function SiteKey(s: Site): Str {
    Canonical.Canonical(SiteJson(s))
  }

  lemma LifetimeKeys(a: Lifetime, b: Lifetime)
    ensures LifetimeKey(a) == LifetimeKey(b) <==> a == b
  {
    LifetimePrints(a);
    LifetimePrints(b);
    CanonicalInjective(LifetimeJson(a), LifetimeJson(b), 1);
    LifetimeJsonInjective(a, b);
  }

  lemma SlotKeys(a: Site, p: Id, g: Id, b: Site, q: Id, h: Id)
    ensures SlotKey(a, p, g) == SlotKey(b, q, h) <==> a == b && p == q && g == h
  {
    SlotPrints(a, p, g);
    SlotPrints(b, q, h);
    var m, n := SlotJson(a, p, g), SlotJson(b, q, h);
    CanonicalInjective(m, n, 2);
    SiteJsonInjective(a, b);
    if m == n {
      assert m.items[0] == n.items[0] && m.items[1] == n.items[1] && m.items[2] == n.items[2];
    }
  }

  lemma SlotPrints(s: Site, p: Id, g: Id)
    ensures Prints(SlotJson(s, p, g), 2)
  {
    SitePrints(s);
    TextPrints(p, 1);
    TextPrints(g, 1);
    ArrayPrints([SiteJson(s), Text(p), Text(g)], 1);
  }

  lemma ReleaseKeys(a: Release, b: Release)
    ensures ReleaseKey(a) == ReleaseKey(b) <==> a == b
  {
    ReleasePrints(a);
    ReleasePrints(b);
    CanonicalInjective(ReleaseJson(a), ReleaseJson(b), 1);
    ReleaseJsonInjective(a, b);
  }

  lemma EdgeKeys(a: Endpoint, b: Endpoint, c: Endpoint, d: Endpoint)
    ensures EdgeKey(a, b) == EdgeKey(c, d) <==> a == c && b == d
  {
    EdgePrints(a, b);
    EdgePrints(c, d);
    var m, n := EdgeJson(a, b), EdgeJson(c, d);
    CanonicalInjective(m, n, 2);
    EndpointJsonInjective(a, c);
    EndpointJsonInjective(b, d);
    if m == n {
      assert m.items[0] == n.items[0] && m.items[1] == n.items[1];
    }
  }

  lemma EdgePrints(a: Endpoint, b: Endpoint)
    ensures Prints(EdgeJson(a, b), 2)
  {
    EndpointPrints(a);
    EndpointPrints(b);
    ArrayPrints([EndpointJson(a), EndpointJson(b)], 1);
  }

  lemma ContractKeys(a: Contract, b: Contract)
    ensures ContractKey(a) == ContractKey(b) <==> a == b
  {
    ContractPrints(a);
    ContractPrints(b);
    CanonicalInjective(ContractJson(a), ContractJson(b), 1);
    ContractJsonInjective(a, b);
  }

  lemma PortKeys(a: Endpoint, b: Endpoint)
    ensures PortKey(a) == PortKey(b) <==> a == b
  {
    EndpointPrints(a);
    EndpointPrints(b);
    CanonicalInjective(EndpointJson(a), EndpointJson(b), 1);
    EndpointJsonInjective(a, b);
  }

  lemma SiteKeys(a: Site, b: Site)
    ensures SiteKey(a) == SiteKey(b) <==> a == b
  {
    SitePrints(a);
    SitePrints(b);
    CanonicalInjective(SiteJson(a), SiteJson(b), 1);
    SiteJsonInjective(a, b);
  }
}
