/** The decoded composition: the records of `composition.generated.ts`. */
module Composition {
  import opened Strings

  /** Every identifier, version, digest and counter of the wire profile is an ASCII string. */
  type Id = s: Str | forall i :: 0 <= i < |s| ==> s[i] < 0x80 witness []

  datatype Lifetime =
    | Service(serviceId: Id)
    | Machine(parent: Id, machineId: Id)
    | Workspace(parent: Id, workspaceId: Id)
    | Session(parent: Id, sessionId: Id)
    | Operation(parent: Id, operationId: Id)

  datatype Scope = Scope(id: Id, lifetime: Lifetime)

  datatype Site =
    | ServiceSite(serviceId: Id)
    | MachineSite(serviceId: Id, machineId: Id)

  datatype Release = Release(pluginId: Id, version: Id, digest: Id, publisher: Id)

  datatype Execution = Data | Isolated

  datatype Anchor = Coordination | TelemetryIngress | CodeClient

  datatype Identity =
    | Core(anchor: Anchor)
    | Plugin(release: Release, generation: Id, incarnation: Id, execution: Execution)

  datatype Owner = ScopeOwner | NodeOwner(node: Id)

  datatype Contract = Contract(id: Id, version: Id, fingerprint: Id)

  datatype Visibility = ScopeOnly | Descendants

  datatype Transport = Local | Remote

  datatype Cardinality = One | Optional | Many

  datatype ProvidedPort = ProvidedPort(id: Id, contract: Contract, visibility: Visibility, transport: Transport)

  datatype RequiredPort = RequiredPort(id: Id, contract: Contract, cardinality: Cardinality)

  datatype Node = Node(
    id: Id,
    scope: Id,
    site: Site,
    identity: Identity,
    owner: Owner,
    provided: seq<ProvidedPort>,
    required: seq<RequiredPort>)

  datatype Endpoint = Endpoint(node: Id, port: Id)

  datatype Binding = Binding(consumer: Endpoint, provider: Endpoint, revision: Id)

  datatype Composition = Composition(scopes: seq<Scope>, nodes: seq<Node>, bindings: seq<Binding>)
}
