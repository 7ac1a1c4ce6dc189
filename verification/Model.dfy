/** Absence, success and failure as values. */
module Common {
  datatype Option<+T> = None | Some(value: T)
  datatype Result<+T, +E> = Ok(value: T) | Err(error: E)
}

/** The desired stack and the observed provider graph (pkg/model/model.go). Provider ids are strings that are
    already trimmed; the empty string means "no id". */
module Model {
  import opened Common

  type Id = string

  const NO_ID: Id := ""

  datatype Ownership = Ownership(
    sourceKind: string, sourceNamespace: string, sourceName: string, sourceUID: string, sharedGroup: string)

  datatype Monitor = Monitor(name: string, kind: string, path: string, interval: int, port: int, timeout: int)

  datatype BackendMember = BackendMember(
    nodeName: string, computeID: string, ip: string, port: int, weight: int)

  datatype VirtualServer = VirtualServer(
    name: string, frontendPort: int, backendNodePort: int, protocol: string, routingAlgorithm: string,
    persistenceType: string, drainingTimeout: int, sourceRanges: seq<string>, monitor: Option<Monitor>,
    defaultPoolName: string, ownership: Ownership)

  datatype Pool = Pool(
    name: string, service: string, portName: string, port: int, members: seq<BackendMember>,
    monitor: Option<Monitor>, ownership: Ownership)

  datatype RoutingRule = RoutingRule(
    name: string, host: string, path: string, matchType: string, poolName: string, priority: int,
    ownership: Ownership)

  datatype Certificate = Certificate(name: string, secretName: string, hosts: seq<string>, ownership: Ownership)

  datatype LBService = LBService(
    name: string, description: string, networkID: string, vpcID: string, region: string, ownership: Ownership)

  datatype VIP = VIP(name: string, ownership: Ownership)

  datatype ServicePort = ServicePort(frontendPort: int, backends: seq<BackendMember>)

  datatype Stack = Stack(
    lbService: LBService, vip: VIP, virtualServers: seq<VirtualServer>, pools: seq<Pool>,
    routingRules: seq<RoutingRule>, certificates: seq<Certificate>, ports: seq<ServicePort>)

  datatype Resource = Resource(
    logicalID: string, externalID: Id, name: string, address: string, desiredHash: string, ownership: Ownership)

  type Bucket = map<string, Resource>

  datatype Graph = Graph(
    lbServices: Bucket, vips: Bucket, virtualServers: Bucket, pools: Bucket, members: Bucket, monitors: Bucket,
    routingRules: Bucket)

  const NO_OWNER := Ownership("", "", "", "", "")
  const EMPTY_GRAPH := Graph(map[], map[], map[], map[], map[], map[], map[])
}

/** Ids that the provider gives out. */
module Ids {
  import opened Model

  /** An id that was never given out before. */
  method Issue(issued: set<Id>) returns (id: Id)
    ensures id != NO_ID && id !in issued
  {
    id := *;
    if id != NO_ID && id !in issued {
      return;
    }
    id := "x";
    var left := issued;
    while left != {}
      invariant left <= issued && id != NO_ID
      invariant forall u | u in issued && u !in left :: |u| < |id|
      decreases left
    {
      var u :| u in left;
      left := left - {u};
      if |u| >= |id| {
        id := u + "x";
      }
    }
  }
}
