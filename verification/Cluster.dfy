/** What outlives a pass of the controller: the provider's load balancers, VIPs and listeners, and the Service objects
    of the namespace with their annotations. Pools, members, monitors and rules are kept apart (module Children). */
module Cluster {
  import opened Common
  import opened Model
  import Observed

  type Uid = string

  const DELETING := "deleting"
  const PROVIDED := "provided"
  const MANAGED := "managed"

  /** `readable` is false while the provider has accepted a creation that a read does not show yet, or has begun a
      deletion that a read no longer shows. */
  datatype LB = LB(
    name: string, status: string, operatingStatus: string, vpcID: string, networkID: string, region: string,
    readable: bool)

  datatype Vip = Vip(lb: Id, address: string, status: string, networkID: string, ipVersion: string)

  /** `maker` names the incarnation of the Service whose pass created the listener. The provider does not store it and
      no modelled code reads it; it only serves to say what a Service owns. */
  datatype Listener = Listener(
    lb: Id, name: string, vip: Id, protocol: string, port: int, status: string, readable: bool, maker: Uid)

  /** A Service object as the controller persists it. `graph` is the observed-graph annotation. */
  datatype Service = Service(
    uid: Uid, wanted: bool, group: string, finalizer: bool, lbID: Id, lbMode: string, vipID: Id, vipMode: string,
    vipAddress: string, vsID: Id, graph: Option<Graph>)

  /** Where a listener is, or was: on which load balancer, under which name, on which VIP. */
  datatype Seat = Seat(lb: Id, name: string, vip: Id)

  function SeatOf(v: Listener): Seat {
    Seat(v.lb, v.name, v.vip)
  }

  /** `issued` collects every id the provider has ever given out, and `seats` every seat a listener has ever had; no
      modelled code reads the latter. */
  datatype Net = Net(
    lbs: map<Id, LB>, vips: map<Id, Vip>, listeners: map<Id, Listener>, issued: set<Id>, seats: set<Seat>,
    services: map<string, Service>, namespace: string)

  // ----- Asynchronous progress of the provider -----

  predicate SameLB(a: LB, b: LB) {
    && a.name == b.name && a.vpcID == b.vpcID && a.networkID == b.networkID && a.region == b.region
    && (a.status == DELETING <==> b.status == DELETING)
    && (a.readable ==> b.readable)
  }

  predicate SameVip(a: Vip, b: Vip) {
    && a.lb == b.lb && a.address == b.address && a.networkID == b.networkID && a.ipVersion == b.ipVersion
    && (a.status == DELETING <==> b.status == DELETING)
  }

  predicate SameListener(a: Listener, b: Listener) {
    && a.lb == b.lb && a.name == b.name && a.vip == b.vip && a.protocol == b.protocol && a.port == b.port
    && a.maker == b.maker
    && (a.status == DELETING <==> b.status == DELETING)
    && if a.status == DELETING then b.readable ==> a.readable else a.readable ==> b.readable
  }

  /** Statuses change, accepted creations become readable, and requested deletions complete; a deleted load balancer
      takes its VIPs and listeners along. Nothing appears, and nothing disappears unasked. */
  predicate Evolves(a: Net, b: Net) {
    && b.services == a.services && b.namespace == a.namespace && b.issued == a.issued && b.seats == a.seats
    && b.lbs.Keys <= a.lbs.Keys && b.vips.Keys <= a.vips.Keys && b.listeners.Keys <= a.listeners.Keys
    && (forall id | id in a.lbs ::
          if id in b.lbs then SameLB(a.lbs[id], b.lbs[id]) else a.lbs[id].status == DELETING)
    && (forall id | id in a.vips ::
          if id in b.vips then SameVip(a.vips[id], b.vips[id]) && a.vips[id].lb in b.lbs
          else a.vips[id].status == DELETING || a.vips[id].lb !in b.lbs)
    && (forall id | id in a.listeners ::
          if id in b.listeners then SameListener(a.listeners[id], b.listeners[id]) && a.listeners[id].lb in b.lbs
          else a.listeners[id].status == DELETING || a.listeners[id].lb !in b.lbs)
  }

  /** Every VIP and listener hangs on a load balancer that reads show; ids in use were given out. */
  ghost predicate WellFormed(n: Net) {
    && NO_ID !in n.issued
    && n.lbs.Keys + n.vips.Keys + n.listeners.Keys <= n.issued
    && (forall id | id in n.vips :: n.vips[id].lb in n.lbs && n.lbs[n.vips[id].lb].readable)
    && (forall id | id in n.listeners ::
          n.listeners[id].lb in n.lbs && n.lbs[n.listeners[id].lb].readable && SeatOf(n.listeners[id]) in n.seats)
  }

  lemma EvolvesIsReflexive(a: Net)
    requires WellFormed(a)
    ensures Evolves(a, a)
  {
  }

  lemma EvolvesIsTransitive(a: Net, b: Net, c: Net)
    requires Evolves(a, b) && Evolves(b, c)
    ensures Evolves(a, c)
  {
    hide SameLB, SameVip, SameListener;
    forall id | id in c.lbs ensures SameLB(a.lbs[id], c.lbs[id]) {
      SameIsTransitive(a.lbs[id], b.lbs[id], c.lbs[id]);
    }
    forall id | id in c.vips ensures SameVip(a.vips[id], c.vips[id]) {
      SameVipIsTransitive(a.vips[id], b.vips[id], c.vips[id]);
    }
    forall id | id in c.listeners ensures SameListener(a.listeners[id], c.listeners[id]) {
      SameListenerIsTransitive(a.listeners[id], b.listeners[id], c.listeners[id]);
    }
    forall id | id in a.lbs && id !in c.lbs ensures a.lbs[id].status == DELETING {
      StatusKept(a, b, id);
    }
    forall id | id in a.vips && id !in c.vips ensures a.vips[id].status == DELETING || a.vips[id].lb !in c.lbs {
      StatusKept(a, b, id);
    }
    forall id | id in a.listeners && id !in c.listeners ensures a.listeners[id].status == DELETING || a.listeners[id].lb !in c.lbs {
      StatusKept(a, b, id);
    }
    forall id | id in c.vips ensures a.vips[id].lb in c.lbs { StatusKept(a, b, id); }
    forall id | id in c.listeners ensures a.listeners[id].lb in c.lbs { StatusKept(a, b, id); }
  }

  lemma SameIsTransitive(a: LB, b: LB, c: LB)
    requires SameLB(a, b) && SameLB(b, c)
    ensures SameLB(a, c)
  {
  }

  lemma SameVipIsTransitive(a: Vip, b: Vip, c: Vip)
    requires SameVip(a, b) && SameVip(b, c)
    ensures SameVip(a, c)
  {
  }

  lemma SameListenerIsTransitive(a: Listener, b: Listener, c: Listener)
    requires SameListener(a, b) && SameListener(b, c)
    ensures SameListener(a, c)
  {
  }

  lemma StatusKept(a: Net, b: Net, id: Id)
    requires Evolves(a, b)
    ensures id in a.lbs && id in b.lbs ==> (a.lbs[id].status == DELETING <==> b.lbs[id].status == DELETING)
    ensures id in a.vips && id in b.vips ==> (a.vips[id].status == DELETING <==> b.vips[id].status == DELETING) && a.vips[id].lb == b.vips[id].lb
    ensures id in a.listeners && id in b.listeners ==>
              (a.listeners[id].status == DELETING <==> b.listeners[id].status == DELETING) && a.listeners[id].lb == b.listeners[id].lb
  {
  }

  lemma EvolvesKeepsWellFormed(a: Net, b: Net)
    requires WellFormed(a) && Evolves(a, b)
    ensures WellFormed(b)
  {
  }

  // ----- Ownership as the controller reads it -----

  predicate OwnedBy(namespace: string, r: Resource, name: string, uid: Uid) {
    && r.ownership.sourceKind == "Service"
    && r.ownership.sourceNamespace == namespace
    && r.ownership.sourceName == name
    && (r.ownership.sourceUID == "" || r.ownership.sourceUID == uid)
  }

  /** The graph names `lb` as a parent that the Service itself owns. */
  predicate NamesParent(namespace: string, graph: Graph, name: string, uid: Uid, lb: Id) {
    exists k | k in graph.lbServices ::
      graph.lbServices[k].externalID == lb && OwnedBy(namespace, graph.lbServices[k], name, uid)
  }

  predicate RecordsParent(n: Net, name: string, lb: Id) {
    && name in n.services
    && n.services[name].graph.Some?
    && NamesParent(n.namespace, n.services[name].graph.value, name, n.services[name].uid, lb)
  }

  /** What one Service contributes to isLBServiceShared: it has a finalizer and holds on to the load balancer. */
  predicate HoldsLB(n: Net, other: string, lb: Id) {
    && other in n.services
    && n.services[other].finalizer
    && if n.services[other].graph.Some? then RecordsParent(n, other, lb) else n.services[other].lbID == lb
  }

  predicate Shared(n: Net, self: string, lb: Id) {
    lb != NO_ID && exists t | t in n.services :: t != self && HoldsLB(n, t, lb)
  }

  /** The listeners that a Service's annotations name. */
  function RecordedListeners(s: Service): set<Id> {
    (if s.vsID != NO_ID then {s.vsID} else {})
    + (if s.graph.Some? then Observed.Ids(s.graph.value.virtualServers) else {})
  }

  /** Where the legacy key is taken, the scalar listener id is in the graph as well, so that mirroring it loses nothing. */
  predicate ScalarCovered(vsID: Id, graph: Graph) {
    Observed.LEGACY_VS in graph.virtualServers && vsID != NO_ID ==> vsID in Observed.Ids(graph.virtualServers)
  }

  /** A listener that reads as deleted, now and for good: ids are never given out twice. */
  predicate Gone(n: Net, id: Id) {
    id !in n.listeners || (n.listeners[id].status == DELETING && !n.listeners[id].readable)
  }

  predicate AllGone(n: Net, ids: set<Id>) {
    forall id | id in ids :: Gone(n, id)
  }

  lemma GoneIsStable(a: Net, b: Net, ids: set<Id>)
    requires Evolves(a, b) && AllGone(a, ids)
    ensures AllGone(b, ids)
  {
  }
}
