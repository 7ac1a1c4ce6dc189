/** The controller as a protocol. A run is a list of provider and Kubernetes calls, issued one at a time, between which
    the provider makes progress. Every call may take effect or not, whatever the caller is told; a crash is a pass that
    stops after any of its calls. `Guard` says what a caller knows when it issues a call. That the controller's own
    code meets these guards is proved where that code is modelled; here they are shown to suffice. */
module Protocol {
  import opened Common
  import opened Model
  import opened Cluster
  import opened Text
  import Observed

  /** Deterministic names: the load balancer of a Service, and the listener of one of its ports. */
  datatype Naming = Naming(lb: string -> string, vs: (string, int) -> string)

  /** Distinct Services get distinct listener names (both are truncated SHA-256 sums of the identity). */
  ghost predicate Injective(nm: Naming) {
    forall a, b, p, q :: nm.vs(a, p) == nm.vs(b, q) ==> a == b
  }

  predicate Named(nm: Naming, service: string, name: string, port: int) {
    name == nm.vs(service, port)
  }

  ghost predicate OwnName(nm: Naming, service: string, name: string) {
    exists p :: Named(nm, service, name, p)
  }

  datatype Actor = Outsider | Controller(service: string)

  /** Where a load balancer is to be; what is empty may be anything. */
  datatype Placement = Placement(networkID: string, vpcID: string, region: string)

  predicate PlacedAs(p: Placement, networkID: string, vpcID: string, region: string) {
    && (p.vpcID != "" ==> vpcID == p.vpcID)
    && (p.networkID != "" ==> networkID == p.networkID)
    && (p.region != "" ==> region != "" && EqualFold(region, p.region))
  }

  /** Why a load balancer or VIP is deleted: a failed one, placed as asked, makes room for its replacement, or its Service
      goes away. */
  datatype Why = Repair(where: Placement) | Cleanup

  function InSubnet(subnet: string): Placement {
    Placement(subnet, "", "")
  }

  /** What a pass works for: the names of all listeners of its stack, and the subnet that it looks for VIPs in. */
  datatype Frontend = Frontend(names: set<string>, subnet: string)

  const NO_FRONT := Frontend({}, "")

  datatype Call =
    | AddFinalizer
    | RemoveFinalizer
    | Patch(to: Service, front: Frontend)
    | CreateLB(name: string)
    | DeleteLB(lb: Id, why: Why)
    | CreateVIP(lb: Id)
    | DeleteVIP(lb: Id, vip: Id, why: Why)
    | CreateListener(lb: Id, name: string, vip: Id, protocol: string, port: int, front: Frontend)
    | DeleteListener(lb: Id, listener: Id)
    | Admit(service: string, to: Service)
    | Edit(service: string, to: Service)
    | Drop(service: string)
    | OutOfBand(net: Net)

  datatype Event = Event(actor: Actor, call: Call, pre: Net, post: Net)

  // ----- Uniqueness -----

  predicate LBNameFree(n: Net, name: string) {
    forall id | id in n.lbs :: n.lbs[id].name != name
  }

  predicate ListenerNameFree(n: Net, lb: Id, name: string) {
    forall id | id in n.listeners :: n.listeners[id].lb == lb ==> n.listeners[id].name != name
  }

  predicate SameFrontend(v: Listener, lb: Id, vip: Id, protocol: string, port: int) {
    v.lb == lb && v.vip == vip && v.port == port && EqualFold(v.protocol, protocol)
  }

  predicate FrontendFree(n: Net, lb: Id, vip: Id, protocol: string, port: int) {
    forall id | id in n.listeners :: !SameFrontend(n.listeners[id], lb, vip, protocol, port)
  }

  ghost predicate UniqueLBNames(n: Net) {
    forall a, b | a in n.lbs && b in n.lbs :: n.lbs[a].name == n.lbs[b].name ==> a == b
  }

  ghost predicate UniqueListenerNames(n: Net) {
    forall a, b | a in n.listeners && b in n.listeners ::
      n.listeners[a].lb == n.listeners[b].lb && n.listeners[a].name == n.listeners[b].name ==> a == b
  }

  predicate Collide(v: Listener, w: Listener) {
    SameFrontend(v, w.lb, w.vip, w.protocol, w.port)
  }

  ghost predicate UniqueFrontends(n: Net) {
    forall a, b | a in n.listeners && b in n.listeners :: Collide(n.listeners[a], n.listeners[b]) ==> a == b
  }

  /** One load balancer per name, one listener per name and per (VIP, protocol, port) on a load balancer. */
  ghost predicate Unique(n: Net) {
    UniqueLBNames(n) && UniqueListenerNames(n) && UniqueFrontends(n)
  }

  // ----- What a Service's annotations may say -----

  /** A parent entry that names a Service of the namespace sits under that Service's load balancer name. */
  ghost predicate KeysFollowOwner(nm: Naming, namespace: string, graph: Graph) {
    forall k | k in graph.lbServices
               && graph.lbServices[k].ownership.sourceKind == "Service"
               && graph.lbServices[k].ownership.sourceNamespace == namespace ::
      k == graph.lbServices[k].logicalID == nm.lb(graph.lbServices[k].ownership.sourceName)
  }

  /** All parents that the graph claims for its own Service are one load balancer. */
  ghost predicate OwnParentIs(namespace: string, graph: Graph, name: string, uid: Uid, lb: Id) {
    forall k | k in graph.lbServices && OwnedBy(namespace, graph.lbServices[k], name, uid) ::
      graph.lbServices[k].externalID == lb
  }

  ghost predicate KnownListener(nm: Naming, n: Net, name: string, lb: Id, id: Id) {
    && id in n.issued
    && (id in n.listeners ==> n.listeners[id].lb == lb && OwnName(nm, name, n.listeners[id].name))
  }

  /** The load balancer does not read as existing, so that nothing can hang on it. */
  predicate Vacant(n: Net, lb: Id) {
    lb !in n.lbs || !n.lbs[lb].readable
  }

  /** The load balancer carries nothing that the Service made or has on record. */
  predicate Unused(n: Net, s: Service, lb: Id) {
    forall id | id in n.listeners && n.listeners[id].lb == lb ::
      n.listeners[id].maker != s.uid && id !in RecordedListeners(s)
  }

  predicate Provided(mode: string, id: Id) {
    mode == PROVIDED && id != NO_ID
  }

  // ----- One VIP -----

  /** The VIP is among those of the load balancer in the subnet. */
  predicate Listed(n: Net, lb: Id, subnet: string, vip: Id) {
    vip in n.vips && n.vips[vip].lb == lb && n.vips[vip].networkID in {"", subnet}
  }

  /** Whatever listener of these names the load balancer has ever had, it was on this VIP. */
  ghost predicate OnlyOn(n: Net, lb: Id, names: set<string>, vip: Id) {
    forall seat | seat in n.seats && seat.lb == lb && seat.name in names :: seat.vip == vip
  }

  predicate CarriesOne(n: Net, lb: Id, names: set<string>, maker: Uid, id: Id) {
    id in n.listeners && n.listeners[id].lb == lb && n.listeners[id].name in names && n.listeners[id].maker == maker
  }

  /** The load balancer carries a listener of these names that the Service made. */
  predicate Carries(n: Net, name: string, lb: Id, names: set<string>) {
    name in n.services && exists id | id in n.listeners :: CarriesOne(n, lb, names, n.services[name].uid, id)
  }

  /** The Service has the VIP on record; or it has none, but still has listeners to tell. */
  predicate Pinned(n: Net, name: string, lb: Id, names: set<string>, vip: Id) {
    name in n.services && (n.services[name].vipID == vip || (n.services[name].vipID == NO_ID && Carries(n, name, lb, names)))
  }

  /** The pass uses the VIP that the Service is on, as long as that one is listed. */
  ghost predicate KeepsVIP(n: Net, name: string, lb: Id, vip: Id, front: Frontend) {
    forall w | OnlyOn(n, lb, front.names, w) && Listed(n, lb, front.subnet, w) && Pinned(n, name, lb, front.names, w) :: vip == w
  }

  // ----- Which load balancer a Service may delete -----

  predicate OwnsEntry(namespace: string, bucket: Bucket, name: string, uid: Uid) {
    exists key | key in bucket :: OwnedBy(namespace, bucket[key], name, uid)
  }

  /** A parent is treated strictly where its mode says so; without any mode on record, where the user supplied its id and
      no entry of the Service itself explains it. */
  predicate Strict(namespace: string, s: Service, name: string, mode: string, id: Id, bucket: Bucket) {
    if s.lbMode == PROVIDED || s.vipMode == PROVIDED then mode == PROVIDED
    else id != NO_ID && !OwnsEntry(namespace, bucket, name, s.uid)
  }

  /** The Service's passes treat its load balancer strictly. */
  predicate StrictLB(namespace: string, s: Service, name: string) {
    Strict(namespace, s, name, s.lbMode, s.lbID, RecordedParents(s))
  }

  function RecordedParents(s: Service): Bucket {
    if s.graph.Some? then s.graph.value.lbServices else map[]
  }

  predicate OfGroup(r: Resource, group: string) {
    r.externalID != NO_ID && r.ownership.sharedGroup == group
  }

  /** A member of the group has this load balancer on record for the group, and a VIP with it. */
  predicate OffersLB(g: Graph, group: string, lb: Id) {
    && (exists key | key in g.lbServices :: OfGroup(g.lbServices[key], group) && g.lbServices[key].externalID == lb)
    && (exists key | key in g.vips :: OfGroup(g.vips[key], group))
  }

  predicate Offers(n: Net, t: string, group: string, lb: Id) {
    t in n.services && n.services[t].group == group && n.services[t].graph.Some? && OffersLB(n.services[t].graph.value, group, lb)
  }

  /** The load balancer that a pass of the Service starts from: the recorded one, or without one that of its vip-group. */
  predicate Reaches(n: Net, name: string, lb: Id) {
    name in n.services && lb != NO_ID && var s := n.services[name];
    s.lbID == lb || (s.lbID == NO_ID && s.group != "" && exists t | t in n.services :: t != name && Offers(n, t, s.group, lb))
  }

  /** No other parent is on record. */
  predicate SoleParent(s: Service, lb: Id) {
    s.lbID == lb && forall key | key in RecordedParents(s) :: RecordedParents(s)[key].externalID in {NO_ID, lb}
  }

  /** The Service's passes would replace the load balancer if it failed: it is wanted, the load balancer is the one that
      they start from, and nobody provided it to this Service. */
  predicate MayRepair(n: Net, name: string, lb: Id) {
    name in n.services && n.services[name].finalizer && var s := n.services[name];
    s.wanted && !StrictLB(n.namespace, s, name) && Reaches(n, name, lb)
  }

  /** It can be read, and is where it was asked to be. */
  predicate ReadsAsPlaced(n: Net, lb: Id, where: Placement) {
    lb in n.lbs ==> n.lbs[lb].readable && PlacedAs(where, n.lbs[lb].networkID, n.lbs[lb].vpcID, n.lbs[lb].region)
  }

  /** The two occasions on which a Service deletes a load balancer: it repairs a failed one that nobody provided to it, or
      it goes away, and nobody else holds it. */
  predicate MayDelete(n: Net, name: string, lb: Id, why: Why) {
    match why
    case Repair(where) => MayRepair(n, name, lb) && ReadsAsPlaced(n, lb, where)
    case Cleanup =>
      name in n.services && n.services[name].finalizer && var s := n.services[name];
      !s.wanted && s.lbMode != PROVIDED && SoleParent(s, lb) && !Shared(n, name, lb) && AllGone(n, RecordedListeners(s))
  }

  // ----- Which VIP a Service may delete -----

  /** What one Service contributes to isVIPShared: it has a finalizer and both ids on record. */
  predicate HoldsVIP(n: Net, other: string, lb: Id, vip: Id) {
    other in n.services && n.services[other].finalizer && n.services[other].lbID == lb && n.services[other].vipID == vip
  }

  predicate SharedVIP(n: Net, self: string, lb: Id, vip: Id) {
    lb != NO_ID && vip != NO_ID && exists t | t in n.services :: t != self && HoldsVIP(n, t, lb, vip)
  }

  function VIPEntries(s: Service): Bucket {
    if s.graph.Some? then s.graph.value.vips else map[]
  }

  /** The VIPs that a Service's annotations name: its own, and those of its graph. */
  function RecordedVIPs(s: Service): set<Id> {
    (if s.vipID != NO_ID then {s.vipID} else {}) + Observed.Ids(VIPEntries(s))
  }

  /** The Service's passes treat its VIP strictly. */
  predicate StrictVIP(namespace: string, s: Service, name: string) {
    Strict(namespace, s, name, s.vipMode, s.vipID, VIPEntries(s))
  }

  /** A listener of the Service's names has been on the load balancer, and on this VIP or on none that is listed. */
  ghost predicate RecoveredFrom(nm: Naming, n: Net, name: string, lb: Id, subnet: string, vip: Id) {
    exists seat | seat in n.seats ::
      seat.lb == lb && OwnName(nm, name, seat.name) && (seat.vip == vip || !Listed(n, lb, subnet, seat.vip))
  }

  /** The VIP that a pass works with: the recorded one; without one, that of its vip-group, which the checkpoint has put into
      its graph, or the one that its listeners tell. */
  ghost predicate ReachesVIP(nm: Naming, n: Net, name: string, lb: Id, subnet: string, vip: Id) {
    name in n.services && vip != NO_ID && var s := n.services[name];
    if s.vipID != NO_ID then vip == s.vipID
    else vip in Observed.Ids(VIPEntries(s)) || RecoveredFrom(nm, n, name, lb, subnet, vip)
  }

  /** The Service's passes would replace failed VIPs on the load balancer: it is wanted, has the load balancer on record, and
      nobody provided its VIP. */
  predicate MendsVIPs(n: Net, name: string, lb: Id) {
    name in n.services && n.services[name].finalizer && var s := n.services[name];
    s.wanted && !StrictVIP(n.namespace, s, name) && RecordsParent(n, name, lb)
  }

  ghost predicate MayRepairVIP(nm: Naming, n: Net, name: string, lb: Id, subnet: string, vip: Id) {
    MendsVIPs(n, name, lb) && ReachesVIP(nm, n, name, lb, subnet, vip)
  }

  /** The VIP is on the load balancer, in the subnet. */
  predicate VIPAsPlaced(n: Net, lb: Id, subnet: string, vip: Id) {
    vip in n.vips ==> n.vips[vip].lb == lb && (n.vips[vip].networkID == "" || subnet == "" || n.vips[vip].networkID == subnet)
  }

  /** The two occasions on which a Service deletes a VIP: it repairs a failed one that nobody provided to it, or it goes away,
      and nobody else has the VIP on record that it has on record itself. Then all VIPs of its graph go. */
  ghost predicate MayDeleteVIP(nm: Naming, n: Net, name: string, lb: Id, vip: Id, why: Why) {
    match why
    case Repair(where) => MayRepairVIP(nm, n, name, lb, where.networkID, vip) && VIPAsPlaced(n, lb, where.networkID, vip)
    case Cleanup =>
      name in n.services && n.services[name].finalizer && var s := n.services[name];
      && !s.wanted && s.vipMode != PROVIDED && vip in RecordedVIPs(s) && SoleParent(s, lb)
      && !SharedVIP(n, name, s.lbID, s.vipID) && AllGone(n, RecordedListeners(s))
  }

  ghost predicate PatchGuard(nm: Naming, n: Net, name: string, to: Service, front: Frontend)
    requires name in n.services
  {
    var s := n.services[name];
    && s.finalizer
    && to.uid == s.uid && to.wanted == s.wanted && to.group == s.group && to.finalizer == s.finalizer
    && to.graph.Some? && to.lbID != NO_ID
    && NamesParent(n.namespace, to.graph.value, name, s.uid, to.lbID)
    && OwnParentIs(n.namespace, to.graph.value, name, s.uid, to.lbID)
    && KeysFollowOwner(nm, n.namespace, to.graph.value) && ScalarCovered(to.vsID, to.graph.value)
    && (s.lbID != NO_ID && to.lbID != s.lbID ==> Unused(n, s, s.lbID))
    && (Provided(s.lbMode, s.lbID) ==> to.lbMode == PROVIDED && to.lbID == s.lbID)
    && (Provided(s.vipMode, s.vipID) ==> to.vipMode == PROVIDED && to.vipID == s.vipID)
    && (forall id | id in RecordedListeners(to) && id !in RecordedListeners(s) :: KnownListener(nm, n, name, to.lbID, id))
    && (to.vipID != s.vipID ==> KeepsVIP(n, name, to.lbID, to.vipID, front))
  }

  // ----- What a caller knows when it issues a call -----

  ghost predicate ControllerGuard(nm: Naming, n: Net, name: string, call: Call) {
    name in n.services && var s := n.services[name];
    match call
    case AddFinalizer => true
    case RemoveFinalizer => AllGone(n, RecordedListeners(s))
    case Patch(to, front) => PatchGuard(nm, n, name, to, front)
    case CreateLB(lbName) => LBNameFree(n, lbName) && s.finalizer && !Provided(s.lbMode, s.lbID)
    case DeleteLB(lb, why) => MayDelete(n, name, lb, why)
    case CreateVIP(lb) => s.finalizer && RecordsParent(n, name, lb) && !Provided(s.vipMode, s.vipID)
    case DeleteVIP(lb, vip, why) => MayDeleteVIP(nm, n, name, lb, vip, why)
    case CreateListener(lb, vsName, vip, protocol, port, front) =>
      && s.finalizer && RecordsParent(n, name, lb) && OwnName(nm, name, vsName)
      && ListenerNameFree(n, lb, vsName) && FrontendFree(n, lb, vip, protocol, port)
      && vsName in front.names && KeepsVIP(n, name, lb, vip, front)
    case DeleteListener(lb, id) =>
      id in n.listeners && n.listeners[id].lb == lb ==> OwnName(nm, name, n.listeners[id].name)
    case _ => false
  }

  /** People edit Services, and other programs use the provider. They are trusted not to take a name or a frontend
      that is in use, not to forge annotations the controller has written, and not to reuse ids or UIDs. */
  ghost predicate OutsiderGuard(nm: Naming, n: Net, call: Call) {
    match call
    case Admit(name, to) =>
      && name !in n.services && to.uid != "" && !to.finalizer && to.graph.None? && to.vsID == NO_ID
      && (forall t | t in n.services :: n.services[t].uid != to.uid)
      && (forall id | id in n.listeners :: n.listeners[id].maker != to.uid)
    case Edit(name, to) =>
      && name in n.services && var s := n.services[name];
      && to.uid == s.uid && to.finalizer == s.finalizer && to.graph == s.graph && to.vsID == s.vsID
      && (s.graph.Some? || s.lbMode != "" || s.vipMode != "" ==>
            to.lbID == s.lbID && to.lbMode == s.lbMode && to.vipID == s.vipID && to.vipMode == s.vipMode)
      && (to.lbID == s.lbID || RecordedListeners(s) == {})
    case Drop(name) => name in n.services && !n.services[name].finalizer
    case OutOfBand(m) =>
      && m.services == n.services && m.namespace == n.namespace && n.issued <= m.issued && n.seats <= m.seats
      && WellFormed(m) && Unique(m)
      && (forall id | id in m.lbs :: if id in n.issued then id in n.lbs && SameLB(n.lbs[id], m.lbs[id]) else true)
      && (forall id | id in m.vips :: if id in n.issued then id in n.vips && SameVip(n.vips[id], m.vips[id]) else true)
      && (forall id | id in m.listeners ::
            if id in n.issued then id in n.listeners && SameListener(n.listeners[id], m.listeners[id])
            else m.listeners[id].maker == "")
    case _ => false
  }

  ghost predicate Guard(nm: Naming, n: Net, actor: Actor, call: Call) {
    match actor
    case Outsider => OutsiderGuard(nm, n, call)
    case Controller(name) => ControllerGuard(nm, n, name, call)
  }

  // ----- What a call does when it takes effect -----

  ghost predicate Created<T>(before: map<Id, T>, after: map<Id, T>, id: Id, issued: set<Id>) {
    id != NO_ID && id !in issued && id in after && after == before[id := after[id]]
  }

  ghost predicate CreatesLB(n: Net, m: Net, name: string, id: Id) {
    && Created(n.lbs, m.lbs, id, n.issued) && m.lbs[id].name == name
    && m == n.(lbs := m.lbs, issued := n.issued + {id})
  }

  ghost predicate CreatesVIP(n: Net, m: Net, lb: Id, id: Id) {
    && Created(n.vips, m.vips, id, n.issued) && m.vips[id].lb == lb && lb in n.lbs && n.lbs[lb].readable
    && m == n.(vips := m.vips, issued := n.issued + {id})
  }

  ghost predicate CreatesListener(n: Net, m: Net, uid: Uid, call: Call, id: Id)
    requires call.CreateListener?
  {
    && Created(n.listeners, m.listeners, id, n.issued) && call.lb in n.lbs && n.lbs[call.lb].readable
    && var v := m.listeners[id];
    && v.lb == call.lb && v.name == call.name && v.vip == call.vip && v.protocol == call.protocol && v.port == call.port
    && v.maker == uid
    && m == n.(listeners := m.listeners, issued := n.issued + {id}, seats := n.seats + {SeatOf(v)})
  }

  ghost predicate Effect(n: Net, actor: Actor, call: Call, m: Net) {
    match actor
    case Outsider =>
      (match call
       case Admit(name, to) => m == n.(services := n.services[name := to])
       case Edit(name, to) => m == n.(services := n.services[name := to])
       case Drop(name) => m == n.(services := n.services - {name})
       case OutOfBand(o) => m == o
       case _ => false)
    case Controller(name) =>
      name in n.services && var s := n.services[name];
      match call
      case AddFinalizer => m == n.(services := n.services[name := s.(finalizer := true)])
      case RemoveFinalizer => m == n.(services := n.services[name := s.(finalizer := false)])
      case Patch(to, _) => m == n.(services := n.services[name := to])
      case CreateLB(lbName) => exists id :: CreatesLB(n, m, lbName, id)
      case DeleteLB(lb, _) => lb in n.lbs && m == n.(lbs := n.lbs[lb := n.lbs[lb].(status := DELETING)])
      case CreateVIP(lb) => exists id :: CreatesVIP(n, m, lb, id)
      case DeleteVIP(lb, vip, _) =>
        vip in n.vips && n.vips[vip].lb == lb && m == n.(vips := n.vips[vip := n.vips[vip].(status := DELETING)])
      case CreateListener(_, _, _, _, _, _) => exists id :: CreatesListener(n, m, s.uid, call, id)
      case DeleteListener(lb, id) =>
        && id in n.listeners && n.listeners[id].lb == lb
        && m == n.(listeners := n.listeners[id := n.listeners[id].(status := DELETING)])
      case _ => false
  }

  ghost predicate Legal(nm: Naming, e: Event) {
    && Guard(nm, e.pre, e.actor, e.call)
    && (e.post == e.pre || Effect(e.pre, e.actor, e.call, e.post))
  }

  /** A run from `start` to `now`. */
  ghost predicate Run(nm: Naming, start: Net, log: seq<Event>, now: Net) {
    if log == [] then Evolves(start, now)
    else
      var e := log[|log| - 1];
      Legal(nm, e) && Run(nm, start, log[..|log| - 1], e.pre) && Evolves(e.post, now)
  }

  // ----- The invariant -----

  ghost predicate ServiceInv(nm: Naming, n: Net, name: string)
    requires name in n.services
  {
    var s := n.services[name];
    && s.uid != ""
    && (s.graph.Some? ==>
          && s.lbID != NO_ID
          && OwnParentIs(n.namespace, s.graph.value, name, s.uid, s.lbID)
          && KeysFollowOwner(nm, n.namespace, s.graph.value) && ScalarCovered(s.vsID, s.graph.value))
    && (forall id | id in RecordedListeners(s) :: KnownListener(nm, n, name, s.lbID, id))
    && (!s.finalizer ==> AllGone(n, RecordedListeners(s)))
  }

  /** Whoever made a listener has the listener's load balancer on record, under its own deterministic name. */
  ghost predicate MadeOnRecord(nm: Naming, n: Net, name: string, id: Id)
    requires name in n.services && id in n.listeners
  {
    n.listeners[id].maker == n.services[name].uid ==>
      RecordsParent(n, name, n.listeners[id].lb) && OwnName(nm, name, n.listeners[id].name)
  }

  ghost predicate Inv(nm: Naming, n: Net) {
    && WellFormed(n) && Unique(n)
    && (forall s, t | s in n.services && t in n.services && n.services[s].uid == n.services[t].uid :: s == t)
    && (forall s | s in n.services :: ServiceInv(nm, n, s))
    && (forall s, id | s in n.services && id in n.listeners :: MadeOnRecord(nm, n, s, id))
  }
}
