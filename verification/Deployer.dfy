/** Deployer.EnsureStack (pkg/deploy/lbaas/deployer.go), up to the children of listeners: load balancer, checkpoint,
    recovery, VIP and listeners. The pass belongs to a Service, whose checkpoint hook is always given. */
module Deployer {
  import opened Common
  import opened Model
  import opened Cluster
  import opened Text
  import opened Protocol
  import opened Safety
  import opened Progress
  import opened Provider
  import Children
  import Observed
  import LBServices
  import VIPs
  import VirtualServers
  import Recovery
  import DesiredHash

  /** `networkUsable` is the verdict of the lookup of an explicit subnet; `reachable` and `resolve` stand for the compute
      lookups of backends, for a listener's request and for pool members; `sha` is the digest. */
  datatype Request = Request(
    stack: Stack, strictLB: bool, strictVIP: bool, networkIDExplicit: bool, networkUsable: bool, aggregate: bool,
    reachable: BackendMember -> bool, resolve: BackendMember -> Option<Children.MemberSpec>, sha: string -> string)

  // ----- What a pass knows about its Service -----

  /** The graph's parent entries fit the Service `actor`, with `lb` as its own parent. */
  ghost predicate OwnParents(nm: Naming, n: Net, actor: string, lbServices: Bucket, lb: Id)
    requires actor in n.services
  {
    var g := EMPTY_GRAPH.(lbServices := lbServices);
    && NamesParent(n.namespace, g, actor, n.services[actor].uid, lb)
    && OwnParentIs(n.namespace, g, actor, n.services[actor].uid, lb)
    && KeysFollowOwner(nm, n.namespace, g)
  }

  /** Every listener id is one that the Service has on record already, or that of its own listener on `lb`. */
  ghost predicate Vouched(nm: Naming, n: Net, actor: string, lb: Id, ids: set<Id>)
    requires actor in n.services
  {
    forall id | id in ids :: id in RecordedListeners(n.services[actor]) || KnownListener(nm, n, actor, lb, id)
  }

  /** After the checkpoint: the Service has a finalizer and its load balancer on record. */
  ghost predicate Anchored(nm: Naming, n: Net, actor: string, lb: Id) {
    && actor in n.services && n.services[actor].finalizer && n.services[actor].lbID == lb != NO_ID
    && RecordsParent(n, actor, lb)
  }

  /** How a pass begins: the Service is wanted and has its finalizer; the state comes from the annotations, or, where no load
      balancer is recorded, from a sibling's; parents that the annotations protect are treated strictly. */
  ghost predicate Begins(nm: Naming, n: Net, actor: string, req: Request, graph: Graph, lbID: Id, vipID: Id, vsID: Id) {
    && actor in n.services && var s := n.services[actor];
    && s.finalizer && s.wanted
    && (s.lbID != NO_ID ==> lbID == s.lbID) && (s.vipID != NO_ID ==> vipID == s.vipID)
    && (lbID != NO_ID ==> Reaches(n, actor, lbID)) && (s.vipID != NO_ID ==> graph.vips == VIPEntries(s))
    && (s.vipID == NO_ID && vipID != NO_ID ==> s.lbID == NO_ID && vipID in Observed.Ids(graph.vips))
    && (StrictLB(n.namespace, s, actor) ==> req.strictLB) && (StrictVIP(n.namespace, s, actor) ==> req.strictVIP)
    && Observed.Ids(graph.virtualServers) <= RecordedListeners(s) && (vsID != NO_ID ==> vsID == s.vsID)
    && ScalarCovered(s.vsID, graph)
    && req.stack.lbService.name == nm.lb(actor) != Observed.LEGACY_LB
    && OwnedBy(n.namespace, Resource("", "", "", "", "", req.stack.lbService.ownership), actor, s.uid)
    && OwnedBy(n.namespace, Resource("", "", "", "", "", req.stack.vip.ownership), actor, s.uid)
    && KeysFollowOwner(nm, n.namespace, graph)
    && (forall i | 0 <= i < |req.stack.virtualServers| ::
          && req.stack.virtualServers[i].name !in {"", Observed.LEGACY_VS} && OwnName(nm, actor, req.stack.virtualServers[i].name))
  }

  function ParentEntry(stack: Stack, lb: Id): Resource {
    Resource(stack.lbService.name, lb, stack.lbService.name, "", "", stack.lbService.ownership)
  }

  function VIPEntry(stack: Stack, vip: Id, address: string): Resource {
    Resource(stack.vip.name, vip, stack.vip.name, address, "", stack.vip.ownership)
  }

  /** The entry of the own parent replaces whatever sat under the own name. */
  lemma NewParentFits(nm: Naming, n: Net, actor: string, req: Request, graph: Graph, lbID: Id, vipID: Id, vsID: Id, bucket: Bucket, lb: Id)
    requires Begins(nm, n, actor, req, graph, lbID, vipID, vsID)
    requires forall key | key in bucket :: (key in graph.lbServices && bucket[key] == graph.lbServices[key]) || bucket[key].ownership == NO_OWNER
    ensures OwnParents(nm, n, actor, bucket[req.stack.lbService.name := ParentEntry(req.stack, lb)], lb)
  {
    hide RecordedListeners, OwnName, StrictVIP, StrictLB, Reaches;
    var all := bucket[req.stack.lbService.name := ParentEntry(req.stack, lb)];
    assert all[req.stack.lbService.name].externalID == lb;
    assert OwnedBy(n.namespace, all[req.stack.lbService.name], actor, n.services[actor].uid);
  }

  lemma ParentsAreBuckets(nm: Naming, n: Net, actor: string, g: Graph, lb: Id)
    requires actor in n.services && OwnParents(nm, n, actor, g.lbServices, lb)
    ensures NamesParent(n.namespace, g, actor, n.services[actor].uid, lb)
    ensures OwnParentIs(n.namespace, g, actor, n.services[actor].uid, lb) && KeysFollowOwner(nm, n.namespace, g)
  {
    hide OwnedBy;
    var e := EMPTY_GRAPH.(lbServices := g.lbServices);
    var k :| k in e.lbServices && e.lbServices[k].externalID == lb && OwnedBy(n.namespace, e.lbServices[k], actor, n.services[actor].uid);
    assert k in g.lbServices;
  }

  // ----- The checkpoint (persistLBCheckpoint in cmd/svc-lb-bridge/main.go) -----

  function ModeOf(mode: string, strict: bool, id: Id): string {
    if mode != "" then mode else if strict then PROVIDED else if id != NO_ID then MANAGED else ""
  }

  function Checkpointed(s: Service, lbID: Id, graph: Graph, strictLB: bool): Service {
    s.(lbID := lbID, lbMode := ModeOf(s.lbMode, strictLB, lbID), graph := Some(graph))
  }

  /** Since `l0`, listeners were created and annotations written only on behalf of these names. */
  ghost predicate AsksFor(l0: seq<Event>, l: seq<Event>, names: set<string>) {
    && |l0| <= |l| && l[..|l0|] == l0
    && forall i | |l0| <= i < |l| ::
         && (l[i].call.CreateListener? ==> l[i].call.front.names == names)
         && (l[i].call.Patch? ==> l[i].call.front.names == names)
  }

  lemma AsksOn(l0: seq<Event>, l1: seq<Event>, l: seq<Event>, names: set<string>)
    requires AsksFor(l0, l1, names) && AsksFor(l1, l, names)
    ensures AsksFor(l0, l, names)
  {
    assert l[..|l0|] == l[..|l1|][..|l0|];
    assert forall i | |l0| <= i < |l1| :: l[i] == l[..|l1|][i];
  }

  lemma AsksNothing(l: seq<Event>, names: set<string>)
    ensures AsksFor(l, l, names)
  {
  }

  lemma SpanAsks(actor: string, n0: Net, l0: seq<Event>, calls: seq<Call>, n: Net, l: seq<Event>, names: set<string>)
    requires Span(actor, n0, l0, calls, n, l)
    requires forall i | 0 <= i < |calls| && calls[i].CreateListener? :: calls[i].front.names == names
    ensures AsksFor(l0, l, names)
  {
  }

  method PersistLBCheckpoint(c: Client, lbID: Id, graph: Graph, strictLB: bool, ghost front: Frontend) returns (ok: bool)
    requires c.Valid() && c.actor in c.net.services
    requires lbID != NO_ID ==> PatchGuard(c.naming, c.net, c.actor, Checkpointed(c.net.services[c.actor], lbID, graph, strictLB), front)
    modifies c
    ensures c.Valid() && c.faults <= old(c.faults)
    ensures if lbID == NO_ID then ok && c.net == old(c.net) && c.log == old(c.log)
            else c.Issued(old(c.net), old(c.log), Patch(Checkpointed(old(c.net).services[c.actor], lbID, graph, strictLB), front))
    ensures ok && lbID != NO_ID ==>
              c.net.services == old(c.net).services[c.actor := Checkpointed(old(c.net).services[c.actor], lbID, graph, strictLB)]
    ensures !ok ==> c.faults < old(c.faults)
    ensures c.net.namespace == old(c.net).namespace && NamesLater(old(c.net), c.net)
    ensures c.net.listeners.Keys <= old(c.net).listeners.Keys
    ensures c.quiet ==> PatchedOnly(old(c.net), old(c.log), c.net, c.log)
    ensures AsksFor(old(c.log), c.log, front.names) && MakesNoLB(old(c.log), c.log) && MakesNoVIP(old(c.log), c.log)
    ensures forall id :: StillThere(old(c.net), c.net, id)
  {
    hide Inv, Run, PatchGuard, Span, Lasting, LastingVIP;
    if lbID == NO_ID {
      return true;
    }
    ghost var n0, l0 := c.net, c.log;
    var to := Checkpointed(c.net.services[c.actor], lbID, graph, strictLB);
    ok := c.WriteService(Patch(to, front), to);
    SpanKeepsNames(c.actor, n0, l0, [], c.log[|l0|].pre, l0);
    SpanAddsNoListeners(c.actor, n0, l0, [], c.log[|l0|].pre, l0);
    InvIsWellFormed(c.naming, n0);
    InvIsWellFormed(c.naming, c.net);
    WriteLeavesParents(c.actor, n0, l0, c.log[|l0|].pre, c.net);
  }

  lemma WriteLeavesParents(actor: string, n0: Net, l0: seq<Event>, mid: Net, n: Net)
    requires WellFormed(n0) && WellFormed(n) && Span(actor, n0, l0, [], mid, l0) && n == mid.(services := n.services)
    ensures forall id :: StillThere(n0, n, id)
  {
    hide Span, StillThere;
    assert WellFormed(mid);
    forall id ensures StillThere(n0, n, id) {
      ReadsLeaveParents(actor, n0, l0, mid, l0, id);
      WritesLeaveParents(mid, n, id);
      StillThereChains(n0, mid, n, id);
    }
  }

  // ----- Load balancer and checkpoint -----

  /** Why a pass ends without success. */
  datatype Stop = Failing(problem: Problem) | ChildFailing(kid: Children.Problem) | HookFailed | Invalid

  datatype Parents = Parents(lb: Id, subnet: string, changed: bool)

  lemma CheckpointFits(nm: Naming, n: Net, actor: string, graph: Graph, lb: Id, strictLB: bool, front: Frontend)
    requires Inv(nm, n) && actor in n.services && n.services[actor].finalizer && lb != NO_ID
    requires OwnParents(nm, n, actor, graph.lbServices, lb)
    requires Observed.Ids(graph.virtualServers) <= RecordedListeners(n.services[actor])
    requires ScalarCovered(n.services[actor].vsID, graph)
    requires LBServices.Replaces(n, lb, n.services[actor].lbID)
    requires Provided(n.services[actor].lbMode, n.services[actor].lbID) ==> strictLB && lb == n.services[actor].lbID
    ensures PatchGuard(nm, n, actor, Checkpointed(n.services[actor], lb, graph, strictLB), front)
  {
    hide Inv, OwnName, OwnedBy, OwnParents, NamesParent, OwnParentIs, KeysFollowOwner;
    ParentsAreBuckets(nm, n, actor, graph, lb);
  }

  lemma CheckpointAnchors(nm: Naming, n: Net, actor: string, graph: Graph, lb: Id, strictLB: bool, s: Service)
    requires actor in n.services && s.finalizer && n.services[actor] == Checkpointed(s, lb, graph, strictLB) && lb != NO_ID
    requires NamesParent(n.namespace, graph, actor, s.uid, lb)
    ensures Anchored(nm, n, actor, lb) && Observed.Ids(graph.virtualServers) <= RecordedListeners(n.services[actor])
  {
    hide OwnedBy;
  }

  function SubnetOf(n: Net, req: Request, lbID: Id): string {
    if req.strictLB && !req.networkIDExplicit && lbID != NO_ID && lbID in n.lbs then n.lbs[lbID].networkID else req.stack.lbService.networkID
  }

  /** The recorded load balancer is ready and placed as asked. */
  predicate LBRests(n: Net, req: Request, lbID: Id) {
    LBServices.Usable(n, lbID, Placement(SubnetOf(n, req, lbID), req.stack.lbService.vpcID, req.stack.lbService.region))
  }

  /** The lookup of an explicit subnet finds it usable, and a supplied load balancer tells its own. */
  predicate PlacementKnown(n: Net, req: Request, lbID: Id) {
    && (req.networkIDExplicit ==> req.networkUsable)
    && (req.strictLB && !req.networkIDExplicit && lbID != NO_ID ==> SubnetOf(n, req, lbID) != "")
  }

  lemma RestingIsPlaced(n: Net, req: Request, lbID: Id)
    requires LBRests(n, req, lbID)
    ensures lbID in n.lbs && n.lbs[lbID].readable
    ensures LBServices.WellPlaced(LBDetail(lbID, n.lbs[lbID]), Placement("", req.stack.lbService.vpcID, req.stack.lbService.region))
  {
    hide LBServices.Up, EqualFold;
    LBServices.WellPlacedMeans(lbID, n.lbs[lbID], Placement("", req.stack.lbService.vpcID, req.stack.lbService.region));
  }

  /** The load balancer, as long as it exists, is where the stack asks for it, in this subnet. */
  predicate StandsAsAsked(n: Net, req: Request, lb: Id, subnet: string) {
    lb in n.issued && (lb in n.lbs ==> LBServices.Placed(n.lbs[lb], Placement(subnet, req.stack.lbService.vpcID, req.stack.lbService.region)))
  }

  lemma PlacesStay(n: Net, m: Net, req: Request, lb: Id, subnet: string)
    requires NamesLater(n, m) && StandsAsAsked(n, req, lb, subnet)
    ensures StandsAsAsked(m, req, lb, subnet)
  {
    hide EqualFold;
  }

  /** The VIP, as long as it exists, is on the load balancer in this subnet, and its address, if one is known, is the provider's. */
  predicate VIPStands(n: Net, lb: Id, subnet: string, vip: Id, address: string) {
    && vip in n.issued
    && (vip in n.vips ==>
          && n.vips[vip].lb == lb && (n.vips[vip].networkID == "" || subnet == "" || n.vips[vip].networkID == subnet)
          && (n.vips[vip].address != "" ==> address in {"", n.vips[vip].address}))
  }

  lemma VIPStays(n: Net, m: Net, lb: Id, subnet: string, vip: Id, address: string)
    requires NamesLater(n, m) && VIPStands(n, lb, subnet, vip, address)
    ensures VIPStands(m, lb, subnet, vip, address)
  {
  }

  lemma AllocatedStands(n0: Net, n: Net, lb: Id, subnet: string, strict: bool, currentID: Id, currentAddress: string, a: VIPs.Allocated)
    requires WellFormed(n)
    ensures VIPs.Kept(n, lb, subnet, strict, currentID, currentAddress, a) ==> VIPStands(n, lb, subnet, a.id, a.address)
    ensures VIPs.Allocates(n0, n, lb, subnet, currentID, a) ==> VIPStands(n, lb, subnet, a.id, a.address)
  {
    hide VIPs.Up, EqualFold;
  }

  lemma UsableStands(n: Net, req: Request, lb: Id, subnet: string)
    requires LBServices.Usable(n, lb, Placement(subnet, req.stack.lbService.vpcID, req.stack.lbService.region)) && lb in n.issued
    ensures StandsAsAsked(n, req, lb, subnet)
  {
    hide LBServices.Placed, LBServices.Up;
  }

  lemma SameSubnet(n: Net, m: Net, req: Request, lbID: Id)
    requires StillThere(n, m, lbID) && Lasting(n, lbID)
    ensures SubnetOf(m, req, lbID) == SubnetOf(n, req, lbID)
  {
  }

  /** Nothing has happened since, or nothing but one write of annotations. */
  ghost predicate PatchedOnly(n0: Net, l0: seq<Event>, n: Net, l: seq<Event>) {
    && n == n0.(services := n.services)
    && (l == l0 || (|l| == |l0| + 1 && l[..|l0|] == l0 && l[|l0|].call.Patch?))
  }

  lemma NothingPatched(n: Net, l: seq<Event>)
    ensures PatchedOnly(n, l, n, l)
  {
  }

  /** A supplied load balancer owns its placement: without an explicit subnet, its own subnet is taken over. */
  method EffectiveSubnet(c: Client, req: Request, lbID: Id) returns (r: Result<string, Stop>)
    requires c.Valid()
    modifies c`net, c`faults
    ensures c.Valid() && c.faults <= old(c.faults) && c.Only(old(c.net), old(c.log))
    ensures r.Err? ==> r.error == Invalid || (r.error.Failing? && r.error.problem.CallFailed?)
    ensures r.Ok? && !(req.strictLB && !req.networkIDExplicit && lbID != NO_ID) ==> r.value == req.stack.lbService.networkID
    ensures r.Ok? && req.strictLB && !req.networkIDExplicit && lbID != NO_ID ==>
              r.value != "" && lbID in c.net.lbs && c.net.lbs[lbID].networkID == r.value
    ensures r.Ok? ==> r.value == SubnetOf(c.net, req, lbID)
    ensures c.quiet && old(c.faults) == 0 && old(LBRests(c.net, req, lbID) && PlacementKnown(c.net, req, lbID)) ==> r.Ok?
  {
    hide Inv, Run, Span, LBServices.WellPlaced, LBRests;
    if LBRests(c.net, req, lbID) {
      RestingIsPlaced(c.net, req, lbID);
    }
    InvIsWellFormed(c.naming, c.net);
    SpanNothing(c.actor, c.net, c.log);
    if req.networkIDExplicit && !req.networkUsable {
      return Err(Invalid);
    }
    if req.strictLB && !req.networkIDExplicit && lbID != NO_ID {
      var supplied := c.GetLBService(lbID);
      if supplied.Err? {
        return Err(Failing(CallFailed(supplied.error)));
      }
      if !LBServices.WellPlaced(supplied.value, Placement("", req.stack.lbService.vpcID, req.stack.lbService.region)) {
        return Err(Invalid);
      }
      if supplied.value.networkID == "" {
        return Err(Invalid);
      }
      return Ok(supplied.value.networkID);
    }
    return Ok(req.stack.lbService.networkID);
  }

  /** The graph as it stands when the load balancer `lb` is put on record. */
  function WithParent(g: Graph, stack: Stack, lb: Id): Graph {
    g.(lbServices := g.lbServices[stack.lbService.name := ParentEntry(stack, lb)])
  }

  /** What the pass holds once the checkpoint is written. */
  ghost predicate Holds(nm: Naming, n: Net, actor: string, req: Request, s: Service, g: Graph, lb: Id) {
    && Anchored(nm, n, actor, lb) && OwnParents(nm, n, actor, g.lbServices, lb)
    && n.services[actor] == Checkpointed(s, lb, g, req.strictLB)
    && (Provided(s.lbMode, s.lbID) ==> lb == s.lbID)
    && Observed.Ids(g.virtualServers) <= RecordedListeners(n.services[actor])
  }

  lemma MirroredFits(nm: Naming, n0: Net, n: Net, actor: string, req: Request, given: Graph, g: Graph, lbID: Id, vipID: Id, vsID: Id, lb: Id)
    requires Begins(nm, n0, actor, req, given, lbID, vipID, vsID) && n.services == n0.services && n.namespace == n0.namespace
    requires exists r: Resource :: r.ownership == NO_OWNER && g.lbServices == Observed.Mirror(given.lbServices, Observed.LEGACY_LB, lbID, r)
    requires exists r: Resource :: r.externalID == vsID && g.virtualServers == Observed.Mirror(given.virtualServers, Observed.LEGACY_VS, vsID, r)
    ensures OwnParents(nm, n, actor, WithParent(g, req.stack, lb).lbServices, lb)
    ensures Observed.Ids(g.virtualServers) <= RecordedListeners(n.services[actor]) && ScalarCovered(n.services[actor].vsID, g)
  {
    hide OwnName, RecordedListeners, OwnParents, OwnedBy, StrictVIP, KeysFollowOwner, StrictLB, Reaches;
    var r: Resource :| r.externalID == vsID && g.virtualServers == Observed.Mirror(given.virtualServers, Observed.LEGACY_VS, vsID, r);
    Observed.MirrorKeepsEntries(given.virtualServers, Observed.LEGACY_VS, vsID, r);
    if vsID == NO_ID {
      assert g.virtualServers == given.virtualServers;
    }
    ScalarIsRecorded(n.services[actor]);
    BeginsElsewhere(nm, n0, n, actor, req, given, lbID, vipID, vsID);
    NewParentFits(nm, n, actor, req, given, lbID, vipID, vsID, g.lbServices, lb);
  }

  /** The load balancer may be put on record. */
  lemma ParentFits(nm: Naming, n0: Net, n: Net, actor: string, req: Request, given: Graph, g: Graph, lbID: Id, vipID: Id, vsID: Id, lb: Id,
                   front: Frontend)
    requires Begins(nm, n0, actor, req, given, lbID, vipID, vsID) && n.services == n0.services && n.namespace == n0.namespace && Inv(nm, n)
    requires exists r: Resource :: r.ownership == NO_OWNER && g.lbServices == Observed.Mirror(given.lbServices, Observed.LEGACY_LB, lbID, r)
    requires exists r: Resource :: r.externalID == vsID && g.virtualServers == Observed.Mirror(given.virtualServers, Observed.LEGACY_VS, vsID, r)
    requires LBServices.Replaces(n, lb, lbID) && (req.strictLB && lbID != NO_ID ==> lb == lbID)
    ensures OwnParents(nm, n, actor, WithParent(g, req.stack, lb).lbServices, lb)
    ensures PatchGuard(nm, n, actor, Checkpointed(n.services[actor], lb, WithParent(g, req.stack, lb), req.strictLB), front)
    ensures lb != NO_ID && (Provided(n.services[actor].lbMode, n.services[actor].lbID) ==> lb == n.services[actor].lbID)
  {
    hide Inv, OwnName, OwnParents, RecordedListeners, ScalarCovered, KeysFollowOwner, OwnedBy, Reaches, PatchGuard, LBServices.Empty,
      OwnsEntry, StrictVIP;
    MirroredFits(nm, n0, n, actor, req, given, g, lbID, vipID, vsID, lb);
    SameScalar(n.services[actor].vsID, g, WithParent(g, req.stack, lb));
    CheckpointFits(nm, n, actor, WithParent(g, req.stack, lb), lb, req.strictLB, front);
  }

  lemma SameScalar(vsID: Id, g: Graph, h: Graph)
    requires h.virtualServers == g.virtualServers
    ensures ScalarCovered(vsID, h) == ScalarCovered(vsID, g)
  {
  }

  lemma ScalarIsRecorded(s: Service)
    ensures s.vsID != NO_ID ==> s.vsID in RecordedListeners(s)
  {
  }

  lemma BeginsElsewhere(nm: Naming, n0: Net, n: Net, actor: string, req: Request, given: Graph, lbID: Id, vipID: Id, vsID: Id)
    requires Begins(nm, n0, actor, req, given, lbID, vipID, vsID) && n.services == n0.services && n.namespace == n0.namespace
    ensures Begins(nm, n, actor, req, given, lbID, vipID, vsID)
  {
    hide OwnName, RecordedListeners, OwnedBy, StrictVIP, KeysFollowOwner, StrictLB, OffersLB;
  }

  lemma UsableIsIssued(nm: Naming, n: Net, lb: Id, p: Placement)
    requires Inv(nm, n) && LBServices.Usable(n, lb, p)
    ensures lb in n.issued
  {
    hide Inv, LBServices.Up, LBServices.Placed;
    InvIsWellFormed(nm, n);
  }

  lemma SameNamespaceParents(nm: Naming, n: Net, m: Net, actor: string, g: Graph, lb: Id)
    requires actor in n.services && actor in m.services && m.namespace == n.namespace && m.services[actor].uid == n.services[actor].uid
    requires OwnParents(nm, n, actor, g.lbServices, lb)
    ensures OwnParents(nm, m, actor, g.lbServices, lb)
    ensures NamesParent(m.namespace, g, actor, m.services[actor].uid, lb)
  {
    hide OwnedBy;
    ParentsAreBuckets(nm, m, actor, g, lb);
  }

  lemma ReadsKeepParents(actor: string, n0: Net, l0: seq<Event>, n: Net, l: seq<Event>, req: Request, lbID: Id)
    requires WellFormed(n0) && WellFormed(n) && Span(actor, n0, l0, [], n, l)
    ensures StillThere(n0, n, lbID) && MakesNoLB(l0, l) && MakesNoVIP(l0, l)
    ensures Lasting(n0, lbID) ==> Lasting(n, lbID) && SubnetOf(n, req, lbID) == SubnetOf(n0, req, lbID)
  {
    hide Span, StillThere, Lasting, MakesNoLB, MakesNoVIP, SubnetOf;
    ReadsLeaveParents(actor, n0, l0, n, l, lbID);
    StillLasting(n0, n, lbID);
    if Lasting(n0, lbID) {
      SameSubnet(n0, n, req, lbID);
    }
    SpanMakesNone(actor, n0, l0, [], n, l);
  }

  /** The provider calls for the load balancer: its placement is settled first. */
  method ProvideLB(c: Client, req: Request, lbID: Id) returns (r: Result<LBServices.Ensured, Stop>, subnet: string)
    requires c.Valid() && c.actor in c.net.services && c.net.services[c.actor].finalizer
    requires Provided(c.net.services[c.actor].lbMode, c.net.services[c.actor].lbID) ==> req.strictLB && lbID != NO_ID
    requires lbID != NO_ID && !req.strictLB ==> MayRepair(c.net, c.actor, lbID)
    modifies c
    ensures c.Valid() && c.faults <= old(c.faults) && c.net.services == old(c.net).services && c.net.namespace == old(c.net).namespace
    ensures NamesLater(old(c.net), c.net) && c.net.listeners.Keys <= old(c.net).listeners.Keys
    ensures AsksFor(old(c.log), c.log, Recovery.Names(req.stack.virtualServers))
    ensures match r
            case Ok(e) => LBServices.Replaces(c.net, e.id, lbID) && (!e.changed ==> e.id == lbID) && e.id in c.net.issued
                          && (req.strictLB && lbID != NO_ID ==> e.id == lbID)
            case Err(Failing(p)) => p.Pending? || p.Terminal? ==>
                LBServices.Replaces(c.net, p.id, lbID) && (req.strictLB && lbID != NO_ID ==> p.id == lbID)
            case Err(_) => true
    ensures MakesNoVIP(old(c.log), c.log) && (r.Ok? ==> StandsAsAsked(c.net, req, r.value.id, subnet))
    ensures old(Lasting(c.net, lbID)) ==>
              && MakesNoLB(old(c.log), c.log)
              && (r.Ok? ==> r.value.id == lbID && subnet == SubnetOf(old(c.net), req, lbID) && StillThere(old(c.net), c.net, lbID))
    ensures c.quiet && old(LBRests(c.net, req, lbID)) ==>
              && c.net == old(c.net) && c.log == old(c.log)
              && (r.Ok? ==> r.value == LBServices.Ensured(lbID, false) && subnet == SubnetOf(c.net, req, lbID))
              && (old(c.faults) == 0 && old(PlacementKnown(c.net, req, lbID)) ==> r.Ok?)
  {
    hide Inv, Run, Span, WellFormed, Unique, Later, LBServices.Usable, LBServices.Empty, NamesLater, MayRepair, AsksFor, Recovery.Names,
      PlacementKnown, Lasting, StillThere, MakesNoLB, MakesNoVIP, StandsAsAsked, SubnetOf;
    ghost var n0, l0 := c.net, c.log;
    InvIsWellFormed(c.naming, n0);
    subnet := "";
    var found := EffectiveSubnet(c, req, lbID);
    ghost var n1, l1 := c.net, c.log;
    SpanKeepsServices(c.actor, n0, l0, [], n1, l1);
    RepairIsAnnotation(n0, n1, c.actor, lbID);
    SpanKeepsNames(c.actor, n0, l0, [], n1, l1);
    InvIsWellFormed(c.naming, n1);
    ReadsKeepParents(c.actor, n0, l0, n1, l1, req, lbID);
    SpanAddsNoListeners(c.actor, n0, l0, [], n1, l1);
    ghost var names := Recovery.Names(req.stack.virtualServers);
    SpanAsks(c.actor, n0, l0, [], n1, l1, names);
    if found.Err? {
      return Err(found.error), subnet;
    }
    subnet := found.value;
    var where := Placement(subnet, req.stack.lbService.vpcID, req.stack.lbService.region);
    var ensured;
    ghost var calls;
    ensured, calls := LBServices.Ensure(c, req.stack.lbService.name, where, lbID, req.strictLB);
    SpanKeepsServices(c.actor, n1, l1, calls, c.net, c.log);
    SpanKeepsNames(c.actor, n1, l1, calls, c.net, c.log);
    SpanAddsNoListeners(c.actor, n1, l1, calls, c.net, c.log);
    NamesLaterChains(n0, n1, c.net);
    ReadsKeepLog(c.actor, n0, l0, n1, l1);
    SpanAsks(c.actor, n1, l1, calls, c.net, c.log, names);
    InvIsWellFormed(c.naming, c.net);
    SpanMakesNone(c.actor, n1, l1, calls, c.net, c.log);
    if calls == [] {
      ReadsKeepLog(c.actor, n1, l1, c.net, c.log);
      ReadsKeepParents(c.actor, n1, l1, c.net, c.log, req, lbID);
      StillThereChains(n0, n1, c.net, lbID);
    }
    if ensured.Err? {
      return Err(Failing(ensured.error)), subnet;
    }
    UsableIsIssued(c.naming, c.net, ensured.value.id, where);
    UsableStands(c.net, req, ensured.value.id, subnet);
    return Ok(ensured.value), subnet;
  }

  /** Ensures the load balancer and writes the checkpoint before anything hangs on it. A load balancer that is pending or
      failed is put on record as well before the pass ends. */
  method EnsureParents(c: Client, observed: Observed.State, req: Request) returns (r: Result<Parents, Stop>)
    requires c.Valid()
    requires Begins(c.naming, c.net, c.actor, req, observed.graph, observed.lbID, observed.vipID, observed.vsID)
    modifies c, observed
    ensures c.Valid() && c.faults <= old(c.faults)
    ensures observed.vipID == old(observed.vipID) && observed.vipAddress == old(observed.vipAddress)
            && observed.vsID == old(observed.vsID) && observed.vsName == old(observed.vsName)
    ensures NamesLater(old(c.net), c.net) && c.net.listeners.Keys <= old(c.net).listeners.Keys
    ensures AsksFor(old(c.log), c.log, Recovery.Names(req.stack.virtualServers))
    ensures MakesNoVIP(old(c.log), c.log) && (r.Ok? ==> StandsAsAsked(c.net, req, r.value.lb, r.value.subnet))
    ensures old(Lasting(c.net, observed.lbID)) ==>
              && MakesNoLB(old(c.log), c.log)
              && (r.Ok? ==> r.value.lb == old(observed.lbID) && r.value.subnet == SubnetOf(old(c.net), req, old(observed.lbID))
                            && StillThere(old(c.net), c.net, old(observed.lbID)))
    ensures c.quiet && old(LBRests(c.net, req, observed.lbID)) ==>
              && PatchedOnly(old(c.net), old(c.log), c.net, c.log)
              && (r.Ok? ==> r.value == Parents(old(observed.lbID), SubnetOf(old(c.net), req, old(observed.lbID)), false))
              && (old(c.faults) == 0 && old(PlacementKnown(c.net, req, observed.lbID)) ==> r.Ok?)
    ensures r.Ok? ==>
              && observed.lbID == r.value.lb && observed.graph == WithParent(old(observed.Mirrored()), req.stack, r.value.lb)
              && Holds(c.naming, c.net, c.actor, req, old(c.net).services[c.actor], observed.graph, r.value.lb)
              && (!r.value.changed ==> r.value.lb == old(observed.lbID))
              && r.value.lb in c.net.issued
  {
    hide Inv, Run, WellFormed, Unique, OwnName, RecordedListeners, OwnParents, PatchGuard, KeysFollowOwner, LBServices.Empty, OwnedBy,
      NamesLater, LBRests, SubnetOf, PatchedOnly, Holds, Anchored, ModeOf, StrictLB, Reaches, MayRepair, AsksFor, Recovery.Names,
      LBServices.Replaces, ScalarCovered, PlacementKnown, Lasting, StillThere, MakesNoLB, MakesNoVIP, StandsAsAsked;
    ghost var s := c.net.services[c.actor];
    NothingPatched(c.net, c.log);
    ghost var n0 := c.net;
    ghost var given, lbID0 := observed.graph, observed.lbID;
    BeginsRepair(c.naming, n0, c.actor, req, given, lbID0, observed.vipID, observed.vsID);
    observed.EnsureGraph();
    var ensured, subnet := ProvideLB(c, req, observed.lbID);
    ghost var n1 := c.net;
    if ensured.Err? && !(ensured.error.Failing? && (ensured.error.problem.Pending? || ensured.error.problem.Terminal?)) {
      return Err(ensured.error);
    }
    var lb := if ensured.Ok? then ensured.value.id else ensured.error.problem.id;
    ghost var l1 := c.log;
    var ok := RecordLB(c, observed, req, lb, subnet, n0, given, lbID0);
    AsksOn(old(c.log), l1, c.log, Recovery.Names(req.stack.virtualServers));
    NamesLaterChains(n0, n1, c.net);
    MakesNoneOn(old(c.log), l1, c.log);
    if ensured.Ok? {
      PlacesStay(n1, c.net, req, lb, subnet);
      if Lasting(n0, lbID0) {
        StillThereChains(n0, n1, c.net, lbID0);
      }
    }
    if !ok {
      return Err(HookFailed);
    }
    if ensured.Err? {
      return Err(ensured.error);
    }
    StaysIssued(n1, c.net, lb);
    return Ok(Parents(lb, subnet, ensured.value.changed));
  }

  /** The load balancer is put on record, and the checkpoint written. `n0` is the provider when the pass began. */
  method RecordLB(c: Client, observed: Observed.State, req: Request, lb: Id, subnet: string, ghost n0: Net, ghost given: Graph, ghost lbID0: Id)
    returns (ok: bool)
    requires c.Valid() && Begins(c.naming, n0, c.actor, req, given, lbID0, observed.vipID, observed.vsID)
    requires c.net.services == n0.services && c.net.namespace == n0.namespace
    requires exists r: Resource ::
               r.ownership == NO_OWNER && observed.graph.lbServices == Observed.Mirror(given.lbServices, Observed.LEGACY_LB, lbID0, r)
    requires exists r: Resource :: r.externalID == observed.vsID
                                   && observed.graph.virtualServers == Observed.Mirror(given.virtualServers, Observed.LEGACY_VS, observed.vsID, r)
    requires LBServices.Replaces(c.net, lb, lbID0) && (req.strictLB && lbID0 != NO_ID ==> lb == lbID0)
    modifies c, observed`lbID, observed`graph
    ensures c.Valid() && c.faults <= old(c.faults) && observed.lbID == lb && observed.graph == WithParent(old(observed.graph), req.stack, lb)
    ensures NamesLater(old(c.net), c.net) && c.net.listeners.Keys <= old(c.net).listeners.Keys
    ensures AsksFor(old(c.log), c.log, Recovery.Names(req.stack.virtualServers))
    ensures c.quiet ==> PatchedOnly(old(c.net), old(c.log), c.net, c.log)
    ensures !ok ==> c.faults < old(c.faults)
    ensures MakesNoLB(old(c.log), c.log) && MakesNoVIP(old(c.log), c.log) && StillThere(old(c.net), c.net, lbID0)
    ensures ok ==> c.actor in n0.services && Holds(c.naming, c.net, c.actor, req, n0.services[c.actor], observed.graph, lb)
  {
    hide Inv, Run, WellFormed, Unique, OwnName, RecordedListeners, OwnParents, PatchGuard, KeysFollowOwner, LBServices.Empty, OwnedBy,
      NamesLater, PatchedOnly, Holds, Anchored, ModeOf, StrictLB, Reaches, AsksFor, Recovery.Names, LBServices.Replaces, ScalarCovered,
      StillThere, MakesNoLB, MakesNoVIP;
    ghost var n1, g := c.net, observed.graph;
    observed.lbID := lb;
    observed.graph := WithParent(observed.graph, req.stack, lb);
    ParentFits(c.naming, n0, n1, c.actor, req, given, g, lbID0, observed.vipID, observed.vsID, lb, FrontOf(req, subnet));
    ok := PersistLBCheckpoint(c, lb, observed.graph, req.strictLB, FrontOf(req, subnet));
    if ok {
      CheckpointHolds(c.naming, n1, c.net, c.actor, req, n0.services[c.actor], observed.graph, lb);
    }
  }

  /** What a pass may repair. */
  lemma BeginsRepair(nm: Naming, n: Net, actor: string, req: Request, graph: Graph, lbID: Id, vipID: Id, vsID: Id)
    requires Begins(nm, n, actor, req, graph, lbID, vipID, vsID)
    ensures lbID != NO_ID && !req.strictLB ==> MayRepair(n, actor, lbID)
    ensures Provided(n.services[actor].lbMode, n.services[actor].lbID) ==> req.strictLB && lbID != NO_ID
  {
    hide OwnName, RecordedListeners, OwnedBy, KeysFollowOwner, Reaches, OwnsEntry, StrictVIP;
  }

  // ----- What the checkpoint means for the VIP -----

  lemma MirrorKeepsOwner(namespace: string, bucket: Bucket, key: string, id: Id, r: Resource, name: string, uid: Uid)
    requires r.ownership == NO_OWNER && r.externalID == id
    ensures OwnsEntry(namespace, Observed.Mirror(bucket, key, id, r), name, uid) == OwnsEntry(namespace, bucket, name, uid)
  {
    Observed.MirrorKeepsEntries(bucket, key, id, r);
    if OwnsEntry(namespace, bucket, name, uid) {
      var k :| k in bucket && OwnedBy(namespace, bucket[k], name, uid);
      assert OwnedBy(namespace, Observed.Mirror(bucket, key, id, r)[k], name, uid);
    }
  }

  /** The checkpoint keeps the mode of the load balancer only. A VIP that was treated strictly is so afterwards if and only if
      its own mode says so, or the checkpoint does not give the load balancer the mode of a provided one. */
  lemma CheckpointKeepsStrictVIP(namespace: string, s: Service, name: string, lbID: Id, g: Graph, strictLB: bool, r: Resource)
    requires r.ownership == NO_OWNER && r.externalID == s.vipID
    requires g.vips == Observed.Mirror(VIPEntries(s), Observed.LEGACY_VIP, s.vipID, r)
    ensures StrictVIP(namespace, Checkpointed(s, lbID, g, strictLB), name) <==>
            StrictVIP(namespace, s, name) && (s.lbMode == "" && strictLB ==> s.vipMode == PROVIDED)
  {
    hide OwnsEntry, Observed.Mirror;
    MirrorKeepsOwner(namespace, VIPEntries(s), Observed.LEGACY_VIP, s.vipID, r, name, s.uid);
  }

  /** After the checkpoint the pass may replace the VIP that it started from, unless it treats that one strictly. */
  lemma HeldMends(nm: Naming, n0: Net, n: Net, actor: string, req: Request, given: Graph, g: Graph, lbID: Id, vipID: Id, vsID: Id, lb: Id)
    requires Begins(nm, n0, actor, req, given, lbID, vipID, vsID) && n.namespace == n0.namespace
    requires Holds(nm, n, actor, req, n0.services[actor], g, lb)
    requires exists r: Resource :: r.ownership == NO_OWNER && r.externalID == vipID
               && g.vips == Observed.Mirror(given.vips, Observed.LEGACY_VIP, vipID, r)
    ensures !req.strictVIP ==> MendsVIPs(n, actor, lb)
    ensures vipID != NO_ID ==> forall subnet :: ReachesVIP(nm, n, actor, lb, subnet, vipID)
  {
    hide OwnName, RecordedListeners, OwnedBy, KeysFollowOwner, Reaches, StrictLB, StrictVIP, OwnParents, RecoveredFrom, Observed.Mirror,
      RecordsParent;
    var s := n0.services[actor];
    var r: Resource :| r.ownership == NO_OWNER && r.externalID == vipID && g.vips == Observed.Mirror(given.vips, Observed.LEGACY_VIP, vipID, r);
    Observed.MirrorKeepsEntries(given.vips, Observed.LEGACY_VIP, vipID, r);
    if s.vipID != NO_ID {
      CheckpointKeepsStrictVIP(n.namespace, s, actor, lb, g, req.strictLB, r);
    } else if s.vipMode == PROVIDED {
      ProvidedVIPIsStrictly(n.namespace, s, actor);
    } else {
      WithoutVIP(n.namespace, n.services[actor], actor);
    }
  }

  lemma WithoutVIP(namespace: string, s: Service, name: string)
    requires s.vipID == NO_ID && s.vipMode != PROVIDED
    ensures !StrictVIP(namespace, s, name)
  {
    hide OwnsEntry;
  }

  lemma ProvidedVIPIsStrictly(namespace: string, s: Service, name: string)
    requires s.vipMode == PROVIDED
    ensures StrictVIP(namespace, s, name)
  {
  }

  lemma CheckpointHolds(nm: Naming, n: Net, m: Net, actor: string, req: Request, s: Service, g: Graph, lb: Id)
    requires actor in n.services && n.services[actor] == s && s.finalizer && lb != NO_ID && (Provided(s.lbMode, s.lbID) ==> lb == s.lbID)
    requires m.services == n.services[actor := Checkpointed(s, lb, g, req.strictLB)] && m.namespace == n.namespace
    requires OwnParents(nm, n, actor, g.lbServices, lb)
    ensures Holds(nm, m, actor, req, s, g, lb)
  {
    hide OwnParents, RecordedListeners, OwnedBy, KeysFollowOwner;
    SameNamespaceParents(nm, n, m, actor, g, lb);
    CheckpointAnchors(nm, m, actor, g, lb, req.strictLB, s);
  }

  lemma StaysIssued(n: Net, m: Net, lb: Id)
    requires NamesLater(n, m) && lb in n.issued
    ensures lb in m.issued
  {
  }

  // ----- Recovery and VIP -----

  /** stackBackends: the members of the default pool, else those of the port. */
  function StackBackends(stack: Stack, vs: VirtualServer): seq<BackendMember> {
    if exists i :: 0 <= i < |stack.pools| && stack.pools[i].name == vs.defaultPoolName
    then FirstPool(stack.pools, vs.defaultPoolName).members
    else PortBackends(stack.ports, vs.frontendPort)
  }

  function FirstPool(pools: seq<Pool>, name: string): Pool
    requires exists i :: 0 <= i < |pools| && pools[i].name == name
  {
    if pools[0].name == name then pools[0]
    else
      var i :| 0 <= i < |pools| && pools[i].name == name;
      assert pools[1..][i - 1].name == name;
      FirstPool(pools[1..], name)
  }

  function PortBackends(ports: seq<ServicePort>, frontendPort: int): seq<BackendMember> {
    if ports == [] then [] else if ports[0].frontendPort == frontendPort then ports[0].backends else PortBackends(ports[1..], frontendPort)
  }

  /** What these backends are, said of the first pool of that name and the first port of that number. */
  ghost predicate AreBackends(stack: Stack, vs: VirtualServer, backends: seq<BackendMember>) {
    if exists pool | pool in stack.pools :: pool.name == vs.defaultPoolName then
      exists i :: 0 <= i < |stack.pools| && FirstOf(stack.pools, vs.defaultPoolName, i) && backends == stack.pools[i].members
    else if exists p | p in stack.ports :: p.frontendPort == vs.frontendPort then
      exists i :: 0 <= i < |stack.ports| && FirstAt(stack.ports, vs.frontendPort, i) && backends == stack.ports[i].backends
    else backends == []
  }

  predicate FirstOf(pools: seq<Pool>, name: string, i: nat)
    requires i < |pools|
  {
    pools[i].name == name && forall j | 0 <= j < i :: pools[j].name != name
  }

  predicate FirstAt(ports: seq<ServicePort>, frontendPort: int, i: nat)
    requires i < |ports|
  {
    ports[i].frontendPort == frontendPort && forall j | 0 <= j < i :: ports[j].frontendPort != frontendPort
  }

  lemma BackendsMean(stack: Stack, vs: VirtualServer)
    ensures AreBackends(stack, vs, StackBackends(stack, vs))
  {
    if exists pool | pool in stack.pools :: pool.name == vs.defaultPoolName {
      var pool :| pool in stack.pools && pool.name == vs.defaultPoolName;
      var i := FirstPoolAt(stack.pools, vs.defaultPoolName, pool);
    } else if exists p | p in stack.ports :: p.frontendPort == vs.frontendPort {
      var p :| p in stack.ports && p.frontendPort == vs.frontendPort;
      var i := FirstPortAt(stack.ports, vs.frontendPort, p);
    } else {
      NoPortAt(stack.ports, vs.frontendPort);
    }
  }

  lemma {:induction false} FirstPoolAt(pools: seq<Pool>, name: string, pool: Pool) returns (i: nat)
    requires pool in pools && pool.name == name
    ensures i < |pools| && FirstOf(pools, name, i) && FirstPool(pools, name) == pools[i]
  {
    if pools[0].name == name {
      i := 0;
    } else {
      i := FirstPoolAt(pools[1..], name, pool);
      i := i + 1;
    }
  }

  lemma {:induction false} FirstPortAt(ports: seq<ServicePort>, frontendPort: int, p: ServicePort) returns (i: nat)
    requires p in ports && p.frontendPort == frontendPort
    ensures i < |ports| && FirstAt(ports, frontendPort, i) && PortBackends(ports, frontendPort) == ports[i].backends
  {
    if ports[0].frontendPort == frontendPort {
      i := 0;
    } else {
      i := FirstPortAt(ports[1..], frontendPort, p);
      i := i + 1;
    }
  }

  lemma {:induction false} NoPortAt(ports: seq<ServicePort>, frontendPort: int)
    requires forall p | p in ports :: p.frontendPort != frontendPort
    ensures PortBackends(ports, frontendPort) == []
  {
    if ports != [] {
      NoPortAt(ports[1..], frontendPort);
    }
  }

  function HashOf(req: Request, vs: VirtualServer): string {
    DesiredHash.ServerHash(req.sha, vs, StackBackends(req.stack, vs))
  }

  function ListenerEntry(req: Request, vs: VirtualServer, id: Id, name: string): Resource {
    Resource(vs.name, id, name, "", HashOf(req, vs), vs.ownership)
  }

  /** The listener bucket with what recovery has found for the first desired listeners. */
  function Adopt(req: Request, bucket: Bucket, found: map<string, VSInfo>, vss: seq<VirtualServer>): Bucket {
    if vss == [] then bucket
    else
      var vs := vss[|vss| - 1];
      var before := Adopt(req, bucket, found, vss[..|vss| - 1]);
      if vs.name in found then before[vs.name := ListenerEntry(req, vs, found[vs.name].id, found[vs.name].name)] else before
  }

  lemma {:induction false} AdoptedAreFound(req: Request, bucket: Bucket, found: map<string, VSInfo>, vss: seq<VirtualServer>)
    ensures forall key | key in Adopt(req, bucket, found, vss) ::
              || (key in bucket && Adopt(req, bucket, found, vss)[key] == bucket[key] && (key in found ==> key !in Recovery.Names(vss)))
              || (key in found && key in Recovery.Names(vss) && Adopt(req, bucket, found, vss)[key].externalID == found[key].id
                  && Adopt(req, bucket, found, vss)[key].logicalID == key)
    ensures bucket.Keys <= Adopt(req, bucket, found, vss).Keys
  {
    hide HashOf;
    if vss != [] {
      var n := |vss| - 1;
      AdoptedAreFound(req, bucket, found, vss[..n]);
      Recovery.NamesGrow(vss, n);
      assert vss[..n + 1] == vss;
    }
  }

  lemma AdoptGrows(req: Request, bucket: Bucket, found: map<string, VSInfo>, vss: seq<VirtualServer>, i: nat)
    requires i < |vss|
    ensures Adopt(req, bucket, found, vss[..i + 1]) ==
              if vss[i].name in found
              then Adopt(req, bucket, found, vss[..i])[vss[i].name := ListenerEntry(req, vss[i], found[vss[i].name].id, found[vss[i].name].name)]
              else Adopt(req, bucket, found, vss[..i])
  {
    hide HashOf;
    assert vss[..i + 1][..i] == vss[..i];
  }

  lemma AdoptNothing(req: Request, bucket: Bucket, found: map<string, VSInfo>, vss: seq<VirtualServer>)
    ensures Adopt(req, bucket, found, vss[..0]) == bucket
  {
  }

  /** Listeners that recovery found by their own names may be put on record. */
  lemma AdoptedAreVouched(nm: Naming, actor: string, req: Request, bucket: Bucket, found: map<string, VSInfo>, seen: Net, n: Net,
                          l: seq<Event>, lb: Id)
    requires WellFormed(seen) && Span(actor, seen, l, [], n, l) && actor in n.services
    requires Recovery.FindsAll(seen, lb, req.stack.virtualServers, found)
    requires forall i | 0 <= i < |req.stack.virtualServers| :: OwnName(nm, actor, req.stack.virtualServers[i].name)
    requires Vouched(nm, n, actor, lb, Observed.Ids(bucket))
    ensures Vouched(nm, n, actor, lb, Observed.Ids(Adopt(req, bucket, found, req.stack.virtualServers)))
  {
    hide OwnName, RecordedListeners, Adopt;
    var vss := req.stack.virtualServers;
    var all := Adopt(req, bucket, found, vss);
    AdoptedAreFound(req, bucket, found, vss);
    forall id | id in Observed.Ids(all) ensures id in RecordedListeners(n.services[actor]) || KnownListener(nm, n, actor, lb, id) {
      var key :| key in all && all[key].externalID == id;
      if key in bucket && all[key] == bucket[key] {
        assert id in Observed.Ids(bucket);
      } else {
        var i :| 0 <= i < |vss| && vss[i].name == key;
        FoundIsKnown(nm, actor, vss, found, seen, n, l, lb, key);
      }
    }
  }

  lemma FoundIsKnown(nm: Naming, actor: string, vss: seq<VirtualServer>, found: map<string, VSInfo>, seen: Net, n: Net, l: seq<Event>,
                     lb: Id, key: string)
    requires WellFormed(seen) && Span(actor, seen, l, [], n, l) && key in found && OwnName(nm, actor, key)
    requires Recovery.FindsAll(seen, lb, vss, found)
    ensures KnownListener(nm, n, actor, lb, found[key].id)
  {
    hide OwnName;
    assert Summary(seen, found[key]);
  }

  lemma VouchedStays(nm: Naming, actor: string, n0: Net, l0: seq<Event>, calls: seq<Call>, n: Net, l: seq<Event>, lb: Id, ids: set<Id>)
    requires WellFormed(n0) && Span(actor, n0, l0, calls, n, l) && actor in n0.services && Vouched(nm, n0, actor, lb, ids)
    ensures actor in n.services && Vouched(nm, n, actor, lb, ids)
  {
    hide OwnName, RecordedListeners;
  }

  lemma AnchoredStays(nm: Naming, actor: string, n0: Net, l0: seq<Event>, calls: seq<Call>, n: Net, l: seq<Event>, lb: Id)
    requires Span(actor, n0, l0, calls, n, l) && Anchored(nm, n0, actor, lb)
    ensures Anchored(nm, n, actor, lb)
  {
    SpanKeepsServices(actor, n0, l0, calls, n, l);
    RecordsParentIsAnnotation(n0, n, actor, lb);
  }

  /** Without a recorded VIP, the stack's listeners are looked up by name, and the VIP is taken where they prove it. */
  method RecoverListeners(c: Client, observed: Observed.State, req: Request, lb: Id, subnet: string) returns (err: Option<Stop>)
    requires c.Valid() && c.actor in c.net.services
    requires Vouched(c.naming, c.net, c.actor, lb, Observed.Ids(observed.graph.virtualServers))
    requires forall i | 0 <= i < |req.stack.virtualServers| ::
               req.stack.virtualServers[i].name != "" && OwnName(c.naming, c.actor, req.stack.virtualServers[i].name)
    modifies c`net, c`faults, observed`graph, observed`vipID, observed`vipAddress
    ensures c.Valid() && c.faults <= old(c.faults) && c.Only(old(c.net), old(c.log))
    ensures c.actor in c.net.services && Vouched(c.naming, c.net, c.actor, lb, Observed.Ids(observed.graph.virtualServers))
    ensures old(observed.vipID) != NO_ID ==>
              err.None? && observed.graph == old(observed.graph) && observed.vipID == old(observed.vipID)
              && observed.vipAddress == old(observed.vipAddress) && c.net == old(c.net)
    ensures err.None? && old(observed.vipID) == NO_ID ==>
              exists seen, r ::
                && WellFormed(seen) && NamesLater(old(c.net), seen) && seen.listeners.Keys <= old(c.net).listeners.Keys
                && Span(c.actor, seen, c.log, [], c.net, c.log)
                && Recovery.Proven(seen, c.net, lb, subnet, req.stack.virtualServers, r)
                && observed.graph == old(observed.graph).(virtualServers := Adopt(req, old(observed.graph.virtualServers), r.found, req.stack.virtualServers))
                && observed.vipID == r.vip && (r.vip != NO_ID ==> observed.vipAddress == r.address)
  {
    hide Inv, Run, Span, WellFormed, Unique, OwnName, RecordedListeners, Vouched, Adopt, Recovery.Proven, Recovery.FindsAll, NamesLater,
      StackBackends, DesiredHash.ServerHash;
    err := None;
    ghost var n0, l0 := c.net, c.log;
    InvIsWellFormed(c.naming, n0);
    SpanNothing(c.actor, n0, l0);
    if observed.vipID != NO_ID {
      return;
    }
    var got;
    ghost var seen;
    got, seen := Recovery.Recover(c, lb, subnet, req.stack.virtualServers);
    ReadsKeepLog(c.actor, n0, l0, c.net, c.log);
    SpanKeepsNames(c.actor, n0, l0, [], seen, l0);
    SpanAddsNoListeners(c.actor, n0, l0, [], seen, l0);
    VouchedStays(c.naming, c.actor, n0, l0, [], c.net, c.log, lb, Observed.Ids(observed.graph.virtualServers));
    if got.Err? {
      return Some(Failing(got.error));
    }
    var found := got.value.found;
    ghost var bucket := observed.graph.virtualServers;
    var vss := req.stack.virtualServers;
    AdoptNothing(req, bucket, found, vss);
    for i := 0 to |vss|
      invariant observed.graph == old(observed.graph).(virtualServers := Adopt(req, bucket, found, vss[..i]))
      invariant observed.vipID == NO_ID && observed.vipAddress == old(observed.vipAddress)
      modifies observed`graph
    {
      AdoptGrows(req, bucket, found, vss, i);
      var vs := vss[i];
      if vs.name in found {
        var backends := Backends(req.stack, vs);
        var hash := DesiredHash.DesiredVirtualServerHash(req.sha, vs, backends);
        observed.graph := observed.graph.(virtualServers :=
          observed.graph.virtualServers[vs.name := Resource(vs.name, found[vs.name].id, found[vs.name].name, "", hash, vs.ownership)]);
      }
    }
    assert vss[..|vss|] == vss;
    if got.value.vip != NO_ID {
      observed.vipID := got.value.vip;
      observed.vipAddress := got.value.address;
    }
    ProvenFinds(seen, c.net, lb, subnet, vss, got.value);
    AdoptedAreVouched(c.naming, c.actor, req, bucket, found, seen, c.net, c.log, lb);
  }

  lemma ProvenFinds(seen: Net, n: Net, lb: Id, subnet: string, vss: seq<VirtualServer>, r: Recovery.Recovered)
    requires Recovery.Proven(seen, n, lb, subnet, vss, r)
    ensures Recovery.FindsAll(seen, lb, vss, r.found)
  {
    hide Recovery.FindsAll, Recovery.OnOneVIP, Listed;
  }

  method Backends(stack: Stack, vs: VirtualServer) returns (r: seq<BackendMember>)
    ensures r == StackBackends(stack, vs)
  {
    for i := 0 to |stack.pools|
      invariant forall j | 0 <= j < i :: stack.pools[j].name != vs.defaultPoolName
    {
      if stack.pools[i].name == vs.defaultPoolName {
        FirstPoolIs(stack.pools, vs.defaultPoolName, i);
        return stack.pools[i].members;
      }
    }
    assert stack.ports[0..] == stack.ports;
    for i := 0 to |stack.ports|
      invariant PortBackends(stack.ports, vs.frontendPort) == PortBackends(stack.ports[i..], vs.frontendPort)
    {
      assert stack.ports[i..][1..] == stack.ports[i + 1..];
      if stack.ports[i].frontendPort == vs.frontendPort {
        return stack.ports[i].backends;
      }
    }
    return [];
  }

  lemma {:induction false} FirstPoolIs(pools: seq<Pool>, name: string, i: nat)
    requires i < |pools| && pools[i].name == name && forall j | 0 <= j < i :: pools[j].name != name
    ensures FirstPool(pools, name) == pools[i]
  {
    if i > 0 {
      FirstPoolIs(pools[1..], name, i - 1);
    }
  }

  method EnsureVIP(c: Client, observed: Observed.State, req: Request, lb: Id, subnet: string)
    returns (r: Result<bool, Stop>, ghost calls: seq<Call>)
    requires c.Valid() && Anchored(c.naming, c.net, c.actor, lb)
    requires Provided(c.net.services[c.actor].vipMode, c.net.services[c.actor].vipID) ==> req.strictVIP
    requires observed.vipID != NO_ID && !req.strictVIP ==> MayRepairVIP(c.naming, c.net, c.actor, lb, subnet, observed.vipID)
    modifies c, observed`graph, observed`vipID, observed`vipAddress
    ensures c.Valid() && c.faults <= old(c.faults) && Span(c.actor, old(c.net), old(c.log), calls, c.net, c.log)
    ensures calls == [] || calls == [Call.CreateVIP(lb)] || calls == [Call.DeleteVIP(lb, old(observed.vipID), Repair(InSubnet(subnet)))]
    ensures req.strictVIP ==> calls == [] && observed.vipID == old(observed.vipID)
    ensures r.Err? ==> observed.vipID == old(observed.vipID) && observed.graph == old(observed.graph)
    ensures r.Ok? ==>
              && observed.vipID != NO_ID
              && observed.graph == old(observed.graph).(vips :=
                   old(observed.graph.vips)[req.stack.vip.name := VIPEntry(req.stack, observed.vipID, observed.vipAddress)])
              && (if calls == []
                  then VIPs.Kept(c.net, lb, subnet, req.strictVIP, old(observed.vipID), old(observed.vipAddress),
                                 VIPs.Allocated(observed.vipID, observed.vipAddress, r.value))
                  else calls == [Call.CreateVIP(lb)] && c.net.vips.Keys <= old(c.net).vips.Keys + {observed.vipID}
                       && VIPs.Allocates(old(c.net), c.net, lb, subnet, old(observed.vipID),
                                         VIPs.Allocated(observed.vipID, observed.vipAddress, r.value)))
    ensures r.Ok? ==> VIPStands(c.net, lb, subnet, observed.vipID, observed.vipAddress)
    ensures old(LastingVIP(c.net, lb, subnet, observed.vipID)) ==>
              MakesNoVIP(old(c.log), c.log) && (r.Ok? ==> observed.vipID == old(observed.vipID))
    ensures MakesNoLB(old(c.log), c.log)
    ensures c.quiet && old(VIPs.Healthy(c.net, lb, subnet, req.strictVIP, observed.vipID)) ==>
              && c.net == old(c.net) && calls == [] && observed.vipID == old(observed.vipID)
              && (r.Ok? ==> observed.vipAddress == VIPs.AddressNow(c.net, observed.vipID, old(observed.vipAddress))
                            && (r.value <==> observed.vipAddress != old(observed.vipAddress)))
              && (old(c.faults) == 0 ==> r.Ok?)
    ensures r.Ok? ==> observed.vipID == old(observed.vipID) || old(observed.vipID) == NO_ID || VIPs.Unlisted(c.net, lb, subnet, old(observed.vipID))
  {
    hide Inv, Run, Span, WellFormed, RecordsParent, VIPs.Validate, MayRepairVIP, LastingVIP, MakesNoLB, MakesNoVIP, VIPStands, VIPs.Judged;
    ghost var vipID, address := observed.vipID, observed.vipAddress;
    var got;
    got, calls := VIPs.Ensure(c, lb, subnet, observed.vipID, observed.vipAddress, req.strictVIP);
    SpanMakesNone(c.actor, old(c.net), old(c.log), calls, c.net, c.log);
    if got.Err? {
      return Err(Failing(got.error)), calls;
    }
    InvIsWellFormed(c.naming, c.net);
    AllocatedStands(old(c.net), c.net, lb, subnet, req.strictVIP, vipID, address, got.value);
    observed.vipID, observed.vipAddress := got.value.id, got.value.address;
    observed.graph := observed.graph.(vips := observed.graph.vips[req.stack.vip.name :=
      Resource(req.stack.vip.name, got.value.id, req.stack.vip.name, got.value.address, "", req.stack.vip.ownership)]);
    return Ok(got.value.changed), calls;
  }

  // ----- Listeners -----

  lemma VouchedOwns(nm: Naming, n: Net, actor: string, lb: Id, ids: set<Id>, id: Id)
    requires Inv(nm, n) && Anchored(nm, n, actor, lb) && Vouched(nm, n, actor, lb, ids) && id in ids
    ensures KnownListener(nm, n, actor, lb, id) && VirtualServers.OwnsNameOf(nm, n, actor, lb, id)
  {
    hide OwnName, RecordsParent, Unique, MadeOnRecord, OwnParentIs, KeysFollowOwner, RecordedListeners;
    assert ServiceInv(nm, n, actor);
  }

  function CurrentID(g: Graph, stack: Stack, vs: VirtualServer, vsID: Id): Id {
    var recorded := if vs.name in g.virtualServers then g.virtualServers[vs.name].externalID else NO_ID;
    if recorded == NO_ID && |stack.virtualServers| == 1 then vsID else recorded
  }

  function RequestFor(req: Request, g: Graph, lb: Id, vip: Id, vs: VirtualServer, vsID: Id, reachable: bool): VirtualServers.Request {
    VirtualServers.Request(
      lb, vip, vs, reachable, CurrentID(g, req.stack, vs, vsID),
      if vs.name in g.virtualServers then g.virtualServers[vs.name].desiredHash else "", HashOf(req, vs), true, NO_FRONT)
  }

  /** What is asked for a listener: the id on record under its name, or else the scalar one if it is the stack's only listener; the
      digest on record, and that of its configuration and backends. */
  ghost predicate IsRequest(req: Request, g: Graph, lb: Id, vip: Id, vs: VirtualServer, vsID: Id, vreq: VirtualServers.Request) {
    && vreq.lb == lb && vreq.vip == vip && vreq.desired == vs && vreq.recreateWhenHashMissing
    && (if vs.name in g.virtualServers && g.virtualServers[vs.name].externalID != NO_ID then vreq.currentID == g.virtualServers[vs.name].externalID
        else vreq.currentID == if |req.stack.virtualServers| == 1 then vsID else NO_ID)
    && (if vs.name in g.virtualServers then vreq.currentHash == g.virtualServers[vs.name].desiredHash else vreq.currentHash == "")
    && exists backends :: AreBackends(req.stack, vs, backends) && vreq.desiredHash == DesiredHash.ServerHash(req.sha, vs, backends)
  }

  lemma RequestMeans(req: Request, g: Graph, lb: Id, vip: Id, vs: VirtualServer, vsID: Id, vreq: VirtualServers.Request)
    requires vreq.(reachable := false, front := NO_FRONT) == RequestFor(req, g, lb, vip, vs, vsID, false)
    ensures IsRequest(req, g, lb, vip, vs, vsID, vreq)
  {
    hide AreBackends, StackBackends, DesiredHash.ServerHash;
    BackendsMean(req.stack, vs);
  }

  /** What the pass works for. */
  function FrontOf(req: Request, subnet: string): Frontend {
    Frontend(Recovery.Names(req.stack.virtualServers), subnet)
  }

  ghost predicate ListenerEnsured(n0: Net, n: Net, vreq: VirtualServers.Request, id: Id, calls: seq<Call>) {
    && VirtualServers.Serves(n, vreq, id)
    && (if calls == [] then
          VirtualServers.Keeps(n, vreq, VirtualServers.Ensured(id, vreq.desired.name, false))
        else calls == [VirtualServers.Creation(vreq)] && id !in n0.issued && VirtualServers.IsNamed(n, id, vreq.desired.name))
  }

  predicate HasAggregatePool(stack: Stack, vs: VirtualServer) {
    exists i :: 0 <= i < |stack.pools| && stack.pools[i].name == vs.defaultPoolName
  }

  /** New listeners answer on this VIP and are created on behalf of `front`; no VIP is created. */
  predicate CreatesOn(calls: seq<Call>, vip: Id, front: Frontend) {
    forall i | 0 <= i < |calls| :: !calls[i].CreateLB? && !calls[i].CreateVIP? && (calls[i].CreateListener? ==> calls[i].vip == vip && calls[i].front == front)
  }

  lemma NothingCreated(vip: Id, front: Frontend)
    ensures CreatesOn([], vip, front)
  {
  }

  lemma AllowedCreateOn(vreq: VirtualServers.Request, calls: seq<Call>)
    requires VirtualServers.AllowedCalls(vreq, calls)
    ensures CreatesOn(calls, vreq.vip, vreq.front)
  {
  }

  lemma CreationsKeepVIP(actor: string, n0: Net, l0: seq<Event>, calls: seq<Call>, n: Net, l: seq<Event>, lb: Id, vip: Id, front: Frontend)
    requires WellFormed(n0) && WellFormed(n) && Span(actor, n0, l0, calls, n, l) && KeepsVIP(n0, actor, lb, vip, front)
    requires CreatesOn(calls, vip, front)
    ensures KeepsVIP(n, actor, lb, vip, front)
  {
    hide Span, WellFormed, KeepsVIP;
    KeepsVIPStays(actor, n0, l0, calls, n, l, lb, vip, front);
  }

  /** The provider calls of one round of the listener loop. */
  method RunListener(c: Client, vreq: VirtualServers.Request, ghost ids: set<Id>)
    returns (r: Result<VirtualServers.Ensured, Stop>, ghost calls: seq<Call>)
    requires c.Valid() && Anchored(c.naming, c.net, c.actor, vreq.lb) && Vouched(c.naming, c.net, c.actor, vreq.lb, ids)
    requires vreq.desired.name != "" && OwnName(c.naming, c.actor, vreq.desired.name)
    requires VirtualServers.OwnsNameOf(c.naming, c.net, c.actor, vreq.lb, vreq.currentID)
    requires vreq.desired.name in vreq.front.names && KeepsVIP(c.net, c.actor, vreq.lb, vreq.vip, vreq.front)
    modifies c
    ensures c.Valid() && c.faults <= old(c.faults) && Span(c.actor, old(c.net), old(c.log), calls, c.net, c.log)
    ensures Anchored(c.naming, c.net, c.actor, vreq.lb) && Vouched(c.naming, c.net, c.actor, vreq.lb, ids)
    ensures CreatesOn(calls, vreq.vip, vreq.front) && KeepsVIP(c.net, c.actor, vreq.lb, vreq.vip, vreq.front)
    ensures r.Ok? ==>
              && KnownListener(c.naming, c.net, c.actor, vreq.lb, r.value.id) && r.value.id != NO_ID
              && ListenerEnsured(old(c.net), c.net, vreq, r.value.id, calls)
              && r.value.name == vreq.desired.name && (r.value.changed <==> calls != [])
    ensures c.quiet && old(VirtualServers.Rests(c.net, vreq)) ==>
              && calls == [] && c.net == old(c.net) && (r.Ok? ==> r.value.id == vreq.currentID)
              && (old(c.faults) == 0 && old(VirtualServers.Unobstructed(c.net, vreq)) ==> r.Ok?)
  {
    hide Inv, Run, Span, WellFormed, Anchored, Vouched, OwnName, VirtualServers.Rests, VirtualServers.Serves, VirtualServers.Keeps,
      VirtualServers.OwnsNameOf, KnownListener, VirtualServers.AllowedCalls, VirtualServers.CreatesAfterBothGone, RecordsParent, KeepsVIP, CreatesOn,
      VirtualServers.Unobstructed;
    ghost var n0, l0 := c.net, c.log;
    InvIsWellFormed(c.naming, n0);
    AnchoredSays(c.naming, n0, c.actor, vreq.lb);
    var got;
    got, calls := VirtualServers.Ensure(c, vreq);
    AllowedCreateOn(vreq, calls);
    InvIsWellFormed(c.naming, c.net);
    CreationsKeepVIP(c.actor, n0, l0, calls, c.net, c.log, vreq.lb, vreq.vip, vreq.front);
    VouchedStays(c.naming, c.actor, n0, l0, calls, c.net, c.log, vreq.lb, ids);
    AnchoredStays(c.naming, c.actor, n0, l0, calls, c.net, c.log, vreq.lb);
    if got.Err? {
      return Err(Failing(got.error)), calls;
    }
    EnsuredIsKnown(c.naming, c.actor, n0, l0, calls, c.net, c.log, vreq, got.value);
    return Ok(got.value), calls;
  }

  ghost function KnownIDs(g: Graph, vsID: Id): set<Id> {
    Observed.Ids(g.virtualServers) + (if vsID != NO_ID then {vsID} else {})
  }

  /** The digest of the desired configuration, and whether all backends can be found. */
  method Describe(req: Request, vs: VirtualServer) returns (hash: string, reachable: bool)
    ensures hash == HashOf(req, vs)
  {
    hide StackBackends, DesiredHash.ServerHash;
    var backends := Backends(req.stack, vs);
    hash := DesiredHash.DesiredVirtualServerHash(req.sha, vs, backends);
    reachable := forall b | b in backends :: req.reachable(b);
  }

  /** One round of the listener loop, up to the children. */
  method EnsureListener(c: Client, observed: Observed.State, req: Request, lb: Id, subnet: string, vs: VirtualServer)
    returns (r: Result<bool, Stop>, ghost calls: seq<Call>, ghost vreq: VirtualServers.Request)
    requires c.Valid() && Anchored(c.naming, c.net, c.actor, lb)
    requires vs.name != "" && OwnName(c.naming, c.actor, vs.name)
    requires Vouched(c.naming, c.net, c.actor, lb, KnownIDs(observed.graph, observed.vsID))
    requires vs.name in Recovery.Names(req.stack.virtualServers) && KeepsVIP(c.net, c.actor, lb, observed.vipID, FrontOf(req, subnet))
    modifies c, observed`graph, observed`vsID, observed`vsName
    ensures c.Valid() && c.faults <= old(c.faults) && Span(c.actor, old(c.net), old(c.log), calls, c.net, c.log)
    ensures r.Err? ==> observed.graph == old(observed.graph) && observed.vsID == old(observed.vsID)
    ensures vreq.(reachable := false, front := NO_FRONT) == RequestFor(req, old(observed.graph), lb, observed.vipID, vs, old(observed.vsID), false)
    ensures IsRequest(req, old(observed.graph), lb, observed.vipID, vs, old(observed.vsID), vreq)
    ensures r.Ok? ==>
              && vs.name in observed.graph.virtualServers && var id := observed.graph.virtualServers[vs.name].externalID;
              && id != NO_ID && ListenerEnsured(old(c.net), c.net, vreq, id, calls) && (r.value <==> calls != [])
              && observed.graph == old(observed.graph).(virtualServers := old(observed.graph.virtualServers)[vs.name := ListenerEntry(req, vs, id, vs.name)])
              && observed.vsID == (if |req.stack.virtualServers| == 1 then id else old(observed.vsID))
    ensures r.Ok? && req.aggregate ==> HasAggregatePool(req.stack, vs)
    ensures CreatesOn(calls, observed.vipID, FrontOf(req, subnet)) && KeepsVIP(c.net, c.actor, lb, observed.vipID, FrontOf(req, subnet))
    ensures c.quiet && VirtualServers.Rests(old(c.net), vreq) ==>
              && calls == [] && c.net == old(c.net) && (r.Ok? ==> observed.graph.virtualServers[vs.name].externalID == vreq.currentID)
              && (old(c.faults) == 0 && VirtualServers.Unobstructed(old(c.net), vreq) && (req.aggregate ==> HasAggregatePool(req.stack, vs)) ==>
                    r.Ok?)
    ensures Anchored(c.naming, c.net, c.actor, lb) && Vouched(c.naming, c.net, c.actor, lb, KnownIDs(observed.graph, observed.vsID))
  {
    hide Inv, Run, Span, WellFormed, Anchored, Vouched, OwnName, HashOf, ListenerEnsured, VirtualServers.OwnsNameOf, KnownIDs,
      KnownListener, VirtualServers.Rests, CurrentID, CreatesOn, KeepsVIP, Recovery.Names, Unique, VirtualServers.Creation,
      VirtualServers.Unobstructed, RequestFor, HasAggregatePool, ListenerEntry, IsRequest;
    ghost var n0, l0 := c.net, c.log;
    ghost var g0, vsID0 := observed.graph, observed.vsID;
    InvIsWellFormed(c.naming, n0);
    SpanNothing(c.actor, n0, l0);
    calls := [];
    NothingCreated(observed.vipID, FrontOf(req, subnet));
    var hash, reachable := Describe(req, vs);
    var currentID := CurrentID(observed.graph, req.stack, vs, observed.vsID);
    var currentHash := if vs.name in observed.graph.virtualServers then observed.graph.virtualServers[vs.name].desiredHash else "";
    var request := VirtualServers.Request(lb, observed.vipID, vs, reachable, currentID, currentHash, hash, true, FrontOf(req, subnet));
    vreq := request;
    RequestIs(req, g0, lb, observed.vipID, vs, vsID0, request);
    RequestMeans(req, g0, lb, observed.vipID, vs, vsID0, request);
    if req.aggregate && !HasAggregatePool(req.stack, vs) {
      return Err(Invalid), calls, vreq;
    }
    CurrentIsOwned(c.naming, n0, c.actor, lb, g0, req.stack, vs, vsID0);
    var got;
    got, calls := RunListener(c, request, KnownIDs(g0, vsID0));
    if got.Err? {
      return Err(got.error), calls, vreq;
    }
    var id := got.value.id;
    observed.graph := observed.graph.(virtualServers :=
      observed.graph.virtualServers[vs.name := Resource(vs.name, id, got.value.name, "", hash, vs.ownership)]);
    EntryIsTheirs(req, vs, id, hash);
    if |req.stack.virtualServers| == 1 {
      observed.vsID, observed.vsName := id, got.value.name;
    }
    AnchoredSays(c.naming, c.net, c.actor, lb);
    VouchedGrows(c.naming, c.net, c.actor, lb, id, g0, vs.name, observed.graph, vsID0, observed.vsID);
    return Ok(got.value.changed), calls, vreq;
  }

  lemma EntryIsTheirs(req: Request, vs: VirtualServer, id: Id, hash: string)
    requires hash == HashOf(req, vs)
    ensures Resource(vs.name, id, vs.name, "", hash, vs.ownership) == ListenerEntry(req, vs, id, vs.name)
  {
    hide HashOf;
  }

  lemma RequestIs(req: Request, g: Graph, lb: Id, vip: Id, vs: VirtualServer, vsID: Id, vreq: VirtualServers.Request)
    requires vreq.(reachable := false, front := NO_FRONT)
             == VirtualServers.Request(lb, vip, vs, false, CurrentID(g, req.stack, vs, vsID),
                                       if vs.name in g.virtualServers then g.virtualServers[vs.name].desiredHash else "", HashOf(req, vs), true,
                                       NO_FRONT)
    ensures vreq.(reachable := false, front := NO_FRONT) == RequestFor(req, g, lb, vip, vs, vsID, false)
  {
    hide HashOf, CurrentID;
  }

  lemma RestsAnyway(n: Net, vreq: VirtualServers.Request)
    ensures VirtualServers.Rests(n, vreq.(reachable := false, front := NO_FRONT)) == VirtualServers.Rests(n, vreq)
  {
    hide VirtualServers.IsUp, VirtualServers.OnFrontend;
  }

  lemma UnobstructedAnyway(n: Net, vreq: VirtualServers.Request)
    ensures VirtualServers.Unobstructed(n, vreq.(reachable := false, front := NO_FRONT)) == VirtualServers.Unobstructed(n, vreq)
  {
    hide EqualFold;
  }

  lemma AnchoredSays(nm: Naming, n: Net, actor: string, lb: Id)
    requires Anchored(nm, n, actor, lb)
    ensures actor in n.services && n.services[actor].finalizer && RecordsParent(n, actor, lb) && lb != NO_ID
  {
  }

  lemma CurrentIsOwned(nm: Naming, n: Net, actor: string, lb: Id, g: Graph, stack: Stack, vs: VirtualServer, vsID: Id)
    requires Inv(nm, n) && Anchored(nm, n, actor, lb)
    requires Vouched(nm, n, actor, lb, KnownIDs(g, vsID))
    ensures VirtualServers.OwnsNameOf(nm, n, actor, lb, CurrentID(g, stack, vs, vsID))
  {
    hide Inv, Anchored, Vouched, OwnName;
    var id := CurrentID(g, stack, vs, vsID);
    if id != NO_ID {
      VouchedOwns(nm, n, actor, lb, KnownIDs(g, vsID), id);
    } else {
      InvIsWellFormed(nm, n);
    }
  }

  lemma EnsuredIsKnown(nm: Naming, actor: string, n0: Net, l0: seq<Event>, calls: seq<Call>, n: Net, l: seq<Event>,
                       vreq: VirtualServers.Request, e: VirtualServers.Ensured)
    requires WellFormed(n0) && WellFormed(n) && Span(actor, n0, l0, calls, n, l)
    requires if calls == [] then VirtualServers.Keeps(n, vreq, e)
             else calls == [VirtualServers.Creation(vreq)] && VirtualServers.Serves(n, vreq, e.id) && e.name == vreq.desired.name
                  && e.id !in n0.issued && VirtualServers.IsNamed(n, e.id, vreq.desired.name) && e.changed
    requires OwnName(nm, actor, vreq.desired.name) && VirtualServers.OwnsNameOf(nm, n0, actor, vreq.lb, vreq.currentID)
    ensures KnownListener(nm, n, actor, vreq.lb, e.id) && e.id != NO_ID && ListenerEnsured(n0, n, vreq, e.id, calls)
    ensures e.name == vreq.desired.name && (e.changed <==> calls != [])
  {
    hide OwnName, VirtualServers.IsUp, VirtualServers.OnFrontend;
  }

  lemma VouchedGrows(nm: Naming, n: Net, actor: string, lb: Id, id: Id, g: Graph, name: string, after: Graph, oldVsID: Id, vsID: Id)
    requires actor in n.services && Vouched(nm, n, actor, lb, KnownIDs(g, oldVsID)) && KnownListener(nm, n, actor, lb, id)
    requires name in after.virtualServers && after.virtualServers == g.virtualServers[name := after.virtualServers[name]]
    requires after.virtualServers[name].externalID == id && (vsID == oldVsID || vsID == id)
    ensures Vouched(nm, n, actor, lb, KnownIDs(after, vsID))
  {
    hide KnownListener, RecordedListeners;
    forall x | x in Observed.Ids(after.virtualServers) ensures x == id || x in Observed.Ids(g.virtualServers) {
      var key :| key in after.virtualServers && after.virtualServers[key].externalID == x;
      assert key != name ==> key in g.virtualServers && g.virtualServers[key].externalID == x;
    }
  }
}
