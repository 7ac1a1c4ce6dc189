/** The Service controller (cmd/svc-lb-bridge/main.go): one call of Reconcile for one Service. Every call it makes is a
    legal step of the protocol, whatever the provider answers and wherever the pass ends. */
module Bridge {
  import opened Common
  import opened Model
  import opened Cluster
  import opened Protocol
  import opened Safety
  import opened Progress
  import opened Provider
  import opened Deployer
  import opened StackDeployer
  import opened StackPass
  import Convergence
  import Kid = Children
  import Observed
  import Recovery
  import GraphKeys
  import VirtualServers
  import LBServices
  import VIPs
  import DesiredHash
  import Teardown

  // ----- Who else holds a parent -----

  /** resourceOwnedByService for some load balancer entry with the given id. */
  method FindsParent(namespace: string, bucket: Bucket, name: string, uid: Uid, lb: Id) returns (r: bool)
    ensures r == exists key | key in bucket :: bucket[key].externalID == lb && OwnedBy(namespace, bucket[key], name, uid)
  {
    hide OwnedBy;
    var left := bucket.Keys;
    while left != {}
      invariant left <= bucket.Keys
      invariant forall key | key in bucket && key !in left :: !(bucket[key].externalID == lb && OwnedBy(namespace, bucket[key], name, uid))
      decreases left
    {
      var key :| key in left;
      left := left - {key};
      if bucket[key].externalID == lb && OwnedBy(namespace, bucket[key], name, uid) {
        return true;
      }
    }
    return false;
  }

  /** isLBServiceShared, with the list of Services at hand. */
  method IsLBServiceShared(n: Net, self: string, lb: Id) returns (r: bool)
    ensures r == Shared(n, self, lb)
  {
    hide OwnedBy, NamesParent;
    if lb == NO_ID {
      return false;
    }
    var left := n.services.Keys;
    while left != {}
      invariant left <= n.services.Keys
      invariant forall t | t in n.services && t !in left && t != self :: !HoldsLB(n, t, lb)
      decreases left
    {
      var t :| t in left;
      left := left - {t};
      var s := n.services[t];
      if t == self || !s.finalizer {
        continue;
      }
      if s.graph.Some? {
        var found := FindsParent(n.namespace, s.graph.value.lbServices, t, s.uid, lb);
        ParentFound(n.namespace, s.graph.value, t, s.uid, lb);
        if found {
          return true;
        }
        continue;
      }
      if s.lbID == lb {
        return true;
      }
    }
    return false;
  }

  lemma ParentFound(namespace: string, g: Graph, name: string, uid: Uid, lb: Id)
    ensures NamesParent(namespace, g, name, uid, lb) ==
              exists key | key in g.lbServices :: g.lbServices[key].externalID == lb && OwnedBy(namespace, g.lbServices[key], name, uid)
  {
    hide OwnedBy;
  }

  /** isVIPShared */
  method IsVIPShared(n: Net, self: string, lb: Id, vip: Id) returns (r: bool)
    ensures r == SharedVIP(n, self, lb, vip)
  {
    if lb == NO_ID || vip == NO_ID {
      return false;
    }
    var left := n.services.Keys;
    while left != {}
      invariant left <= n.services.Keys
      invariant forall t | t in n.services && t !in left && t != self :: !HoldsVIP(n, t, lb, vip)
      decreases left
    {
      var t :| t in left;
      left := left - {t};
      if t != self && n.services[t].finalizer && n.services[t].lbID == lb && n.services[t].vipID == vip {
        return true;
      }
    }
    return false;
  }

  // ----- The shared parent of a vip-group -----

  datatype Parent = Parent(lb: Resource, vipKey: string, vip: Resource)

  predicate Sibling(n: Net, self: string, t: string) {
    && self in n.services && t in n.services && t != self
    && n.services[t].group == n.services[self].group && n.services[t].graph.Some?
  }

  /** The graph has this load balancer and this VIP for the group. */
  ghost predicate OffersParent(g: Graph, group: string, p: Parent) {
    && p.lb in g.lbServices.Values && OfGroup(p.lb, group)
    && p.vipKey in g.vips && g.vips[p.vipKey] == p.vip && OfGroup(p.vip, group)
  }

  /** A member of the Service's group has this pair on record. */
  ghost predicate Offered(n: Net, self: string, p: Parent) {
    exists t :: Sibling(n, self, t) && OffersParent(n.services[t].graph.value, n.services[self].group, p)
  }

  /** The Service has no load balancer on record, but another member of its group has a pair. */
  ghost predicate Joins(n: Net, self: string) {
    && self in n.services && n.services[self].lbID == NO_ID && n.services[self].group != "" && exists p :: Offered(n, self, p)
  }

  /** The load balancer and the VIP that a pass of the Service starts from. */
  ghost predicate StartsFrom(n: Net, self: string, lb: Id, vip: Id) {
    if Joins(n, self) then exists p :: Offered(n, self, p) && lb == p.lb.externalID && vip == p.vip.externalID
    else self in n.services && lb == n.services[self].lbID && vip == n.services[self].vipID
  }

  method FindEntry(bucket: Bucket, group: string) returns (r: Option<string>)
    ensures match r
            case None => forall key | key in bucket :: !OfGroup(bucket[key], group)
            case Some(key) => key in bucket && OfGroup(bucket[key], group)
  {
    var left := bucket.Keys;
    while left != {}
      invariant left <= bucket.Keys && forall key | key in bucket && key !in left :: !OfGroup(bucket[key], group)
      decreases left
    {
      var key :| key in left;
      left := left - {key};
      if OfGroup(bucket[key], group) {
        return Some(key);
      }
    }
    return None;
  }

  /** sharedParentObservedState: a parent pair that some other member of the group has on record, if there is one. */
  method SharedParent(n: Net, self: string) returns (r: Option<Parent>)
    requires self in n.services
    ensures match r
            case None => forall p :: !Offered(n, self, p)
            case Some(p) => Offered(n, self, p)
  {
    var group := n.services[self].group;
    var left := n.services.Keys;
    while left != {}
      invariant left <= n.services.Keys
      invariant forall t, p | Sibling(n, self, t) && t !in left :: !OffersParent(n.services[t].graph.value, group, p)
      decreases left
    {
      var t :| t in left;
      left := left - {t};
      if t == self || n.services[t].group != group || n.services[t].graph.None? {
        continue;
      }
      var g := n.services[t].graph.value;
      var lb := FindEntry(g.lbServices, group);
      var vip := FindEntry(g.vips, group);
      if lb.Some? && vip.Some? {
        r := Some(Parent(g.lbServices[lb.value], vip.value, g.vips[vip.value]));
        assert OffersParent(g, group, r.value);
        return;
      }
    }
    return None;
  }

  function ParentState(p: Parent): Graph {
    EMPTY_GRAPH.(lbServices := map[p.lb.logicalID := p.lb], vips := map[p.vipKey := p.vip])
  }

  lemma ParentStateFits(nm: Naming, n: Net, self: string, p: Parent)
    requires Inv(nm, n) && self in n.services
    requires Offered(n, self, p)
    ensures KeysFollowOwner(nm, n.namespace, ParentState(p))
  {
    hide WellFormed, Unique, MadeOnRecord, RecordedListeners, KnownListener, OwnParentIs;
    var t :| Sibling(n, self, t) && OffersParent(n.services[t].graph.value, n.services[self].group, p);
    assert ServiceInv(nm, n, t);
    var g := n.services[t].graph.value;
    var key :| key in g.lbServices && g.lbServices[key] == p.lb;
  }

  // ----- How strictly parents are treated -----

  method FindsOwn(namespace: string, bucket: Bucket, name: string, uid: Uid) returns (r: bool)
    ensures r == OwnsEntry(namespace, bucket, name, uid)
  {
    hide OwnedBy;
    var left := bucket.Keys;
    while left != {}
      invariant left <= bucket.Keys && forall key | key in bucket && key !in left :: !OwnedBy(namespace, bucket[key], name, uid)
      decreases left
    {
      var key :| key in left;
      left := left - {key};
      if OwnedBy(namespace, bucket[key], name, uid) {
        return true;
      }
    }
    return false;
  }

  /** strictProvidedResourcePolicies */
  method StrictPolicies(namespace: string, s: Service, name: string, g: Graph) returns (lb: bool, vip: bool)
    ensures lb == Strict(namespace, s, name, s.lbMode, s.lbID, g.lbServices)
    ensures vip == Strict(namespace, s, name, s.vipMode, s.vipID, g.vips)
  {
    hide OwnsEntry;
    if s.lbMode == PROVIDED && s.vipMode == PROVIDED {
      return true, true;
    }
    if s.lbMode == PROVIDED && s.vipMode != PROVIDED {
      return true, false;
    }
    if s.vipMode == PROVIDED && s.lbMode != PROVIDED {
      return false, true;
    }
    if s.lbID == NO_ID && s.vipID == NO_ID {
      return false, false;
    }
    var ownedLB := FindsOwn(namespace, g.lbServices, name, s.uid);
    var ownedVIP := FindsOwn(namespace, g.vips, name, s.uid);
    return s.lbID != NO_ID && !ownedLB, s.vipID != NO_ID && !ownedVIP;
  }

  /** A Service that joins a vip-group without annotations of its own holds the group's load balancer as managed, even if a
      user supplied it to another member. */
  lemma JoinersHoldAsManaged(namespace: string, s: Service, name: string, p: Parent)
    requires s.lbID == NO_ID && s.vipID == NO_ID && s.lbMode == "" && s.vipMode == "" && p.lb.externalID != NO_ID
    ensures !Strict(namespace, s, name, s.lbMode, s.lbID, ParentState(p).lbServices)
    ensures ModeOf(s.lbMode, Strict(namespace, s, name, s.lbMode, s.lbID, ParentState(p).lbServices), p.lb.externalID) == MANAGED
  {
  }

  // ----- Deletion -----

  lemma CleanupIsEntitled(nm: Naming, n: Net, name: string, s: Service, g: Graph, deleteVIP: bool, deleteLB: bool)
    requires Inv(nm, n) && name in n.services && n.services[name] == s
    requires g == AnnotatedGraph(s)
    requires s.finalizer && !s.wanted && (deleteLB ==> !Shared(n, name, s.lbID) && s.lbMode != PROVIDED)
    requires deleteVIP ==> !SharedVIP(n, name, s.lbID, s.vipID) && s.vipMode != PROVIDED
    ensures Teardown.Entitled(nm, n, name, Teardown.ParentIDs(s.lbID, g), Observed.Ids(g.virtualServers), Observed.Ids(g.vips), deleteVIP, deleteLB)
  {
    hide WellFormed, Unique, MadeOnRecord, OwnName, OwnParentIs, KeysFollowOwner, Shared, SharedVIP, Teardown.ParentIDs, AnnotatedGraph,
      ScalarCovered, RecordedListeners, RecordedVIPs, SoleParent;
    assert ServiceInv(nm, n, name);
    MirrorCovers(s, g);
    MirrorNamesVIPs(s, g);
    forall lb | Teardown.ParentIDs(s.lbID, g) == {lb} ensures lb == s.lbID && SoleParent(s, lb) {
      OneParentIsSole(s, g, lb);
    }
  }

  /** The annotations as the controller reads them: the graph, with scalar ids mirrored. */
  function AnnotatedGraph(s: Service): Graph {
    var g := if s.graph.Some? then s.graph.value else EMPTY_GRAPH;
    g.(lbServices := Observed.Mirror(g.lbServices, Observed.LEGACY_LB, s.lbID, Resource(Observed.LEGACY_LB, s.lbID, "", "", "", NO_OWNER)),
       vips := Observed.Mirror(g.vips, Observed.LEGACY_VIP, s.vipID, Resource(Observed.LEGACY_VIP, s.vipID, "", s.vipAddress, "", NO_OWNER)),
       virtualServers := Observed.Mirror(g.virtualServers, Observed.LEGACY_VS, s.vsID, Resource(Observed.LEGACY_VS, s.vsID, "", "", "", NO_OWNER)))
  }

  lemma MirrorCovers(s: Service, g: Graph)
    requires g == AnnotatedGraph(s) && (s.graph.Some? ==> ScalarCovered(s.vsID, s.graph.value))
    ensures RecordedListeners(s) == Observed.Ids(g.virtualServers)
    ensures s.lbID in Teardown.ParentIDs(s.lbID, g) || s.lbID == NO_ID
    ensures s.lbID == NO_ID && s.graph.None? ==> Teardown.ParentIDs(s.lbID, g) == {}
  {
    var before := if s.graph.Some? then s.graph.value.virtualServers else map[];
    Observed.MirrorKeepsEntries(before, Observed.LEGACY_VS, s.vsID, Resource(Observed.LEGACY_VS, s.vsID, "", "", "", NO_OWNER));
    if s.vsID != NO_ID && Observed.LEGACY_VS !in before {
      assert g.virtualServers[Observed.LEGACY_VS].externalID == s.vsID;
    }
  }

  /** The VIPs that cleanup is about. */
  lemma MirrorNamesVIPs(s: Service, g: Graph)
    requires g == AnnotatedGraph(s)
    ensures Observed.Ids(VIPEntries(s)) <= Observed.Ids(g.vips) <= RecordedVIPs(s)
    ensures Observed.LEGACY_VIP !in VIPEntries(s) ==> Observed.Ids(g.vips) == RecordedVIPs(s)
  {
    var r := Resource(Observed.LEGACY_VIP, s.vipID, "", s.vipAddress, "", NO_OWNER);
    assert g.vips == Observed.Mirror(VIPEntries(s), Observed.LEGACY_VIP, s.vipID, r);
    Observed.MirrorKeepsEntries(VIPEntries(s), Observed.LEGACY_VIP, s.vipID, r);
    if s.vipID != NO_ID && Observed.LEGACY_VIP !in VIPEntries(s) {
      assert g.vips[Observed.LEGACY_VIP].externalID == s.vipID;
    }
    if s.vipID == NO_ID {
      assert g.vips == VIPEntries(s);
    }
  }

  lemma OneParentIsSole(s: Service, g: Graph, lb: Id)
    requires g == AnnotatedGraph(s) && Teardown.ParentIDs(s.lbID, g) == {lb} && s.lbID == lb
    ensures SoleParent(s, lb)
  {
    forall key | key in RecordedParents(s) && RecordedParents(s)[key].externalID != NO_ID ensures RecordedParents(s)[key].externalID == lb {
      assert g.lbServices[key] == RecordedParents(s)[key];
      assert RecordedParents(s)[key].externalID in Teardown.ParentIDs(s.lbID, g);
    }
  }

  /** What a finished cleanup has established. */
  ghost predicate CleanedUp(n: Net, s: Service, deleteLB: bool) {
    && AllGone(n, RecordedListeners(s))
    && (deleteLB && Teardown.ParentIDs(s.lbID, AnnotatedGraph(s)) == {s.lbID} ==> Vacant(n, s.lbID))
  }

  lemma CleanupCleans(nm: Naming, n0: Net, n: Net, name: string, s: Service, all: Teardown.Lists, deleteVIP: bool, deleteLB: bool,
                      flags: Teardown.Flags, kidCalls: seq<Kid.KidCall>, calls: seq<Call>, k: Kid.Kids)
    requires Inv(nm, n0) && name in n0.services && n0.services[name] == s && NamesLater(n0, n)
    requires Teardown.Outcome(AnnotatedGraph(s), s.lbID, all, deleteVIP, deleteLB, true, flags, None, kidCalls, calls, n, k)
    ensures CleanedUp(n, s, deleteLB)
  {
    hide Unique, MadeOnRecord, OwnParentIs, KeysFollowOwner, OwnName, Teardown.ParentIDs, Teardown.ParentScript, Teardown.ChildScript,
      Teardown.ChildrenGone, Teardown.Records, AnnotatedGraph, ScalarCovered, RecordedListeners;
    assert ServiceInv(nm, n0, name);
    var g := AnnotatedGraph(s);
    var ids := Teardown.ParentIDs(s.lbID, g);
    MirrorCovers(s, g);
    Teardown.OneParent(ids);
    if ids != {} {
      var lb :| lb in ids;
      assert ids == {lb} by {
        forall other | other in ids ensures other == lb {}
      }
    }
  }

  /** Since `l0`, VIPs were deleted only in this case. */
  ghost predicate DeletesVIPsOnlyIf(l0: seq<Event>, l: seq<Event>, allowed: bool) {
    |l0| <= |l| && forall i | |l0| <= i < |l| && l[i].call.DeleteVIP? :: allowed
  }

  /** Cleanup has nothing to wait for: what the Service has on record is gone, and so is its load balancer, which is its only
      one, unless it stays. */
  ghost predicate NothingLeft(n: Net, s: Service, kept: bool) {
    SoleParent(s, s.lbID) && AllGone(n, RecordedListeners(s)) && (kept || s.lbID !in n.lbs)
  }

  lemma NothingLeftSucceeds(nm: Naming, n0: Net, l0: seq<Event>, calls: seq<Call>, n: Net, l: seq<Event>, name: string, s: Service,
                            all: Teardown.Lists, deleteVIP: bool, deleteLB: bool, flags: Teardown.Flags, err: Option<Teardown.Stopped>,
                            kidCalls: seq<Kid.KidCall>, k: Kid.Kids)
    requires Inv(nm, n0) && name in n0.services && n0.services[name] == s && Span(name, n0, l0, calls, n, l)
    requires Teardown.Outcome(AnnotatedGraph(s), s.lbID, all, deleteVIP, deleteLB, true, flags, err, kidCalls, calls, n, k)
    requires (err.Some? ==> Teardown.Fails(err.value, 0, 0, 0, 0)) && NothingLeft(n0, s, !deleteLB)
    ensures err.None?
  {
    hide Unique, MadeOnRecord, OwnParentIs, KeysFollowOwner, OwnName, Teardown.Outcome, AnnotatedGraph, ScalarCovered, RecordedListeners,
      Span, AllGone, WellFormed, SoleParent;
    InvIsWellFormed(nm, n0);
    assert ServiceInv(nm, n0, name);
    MirrorCovers(s, AnnotatedGraph(s));
    SoleIsOneParent(s, AnnotatedGraph(s));
    Teardown.NothingToWaitFor(name, n0, l0, calls, n, l, AnnotatedGraph(s), s.lbID, all, deleteVIP, deleteLB, true, flags, err, kidCalls, k);
  }

  lemma SoleIsOneParent(s: Service, g: Graph)
    requires g == AnnotatedGraph(s) && SoleParent(s, s.lbID)
    ensures |Teardown.ParentIDs(s.lbID, g)| <= 1 && Teardown.ParentIDs(s.lbID, g) <= {s.lbID}
  {
    assert forall key | key in g.lbServices && g.lbServices[key].externalID != s.lbID ::
        key in RecordedParents(s) && RecordedParents(s)[key] == g.lbServices[key];
    assert Observed.Ids(g.lbServices) <= {s.lbID};
    AtMostOne(Teardown.ParentIDs(s.lbID, g), s.lbID);
  }

  lemma AtMostOne(ids: set<Id>, id: Id)
    requires ids <= {id}
    ensures |ids| <= 1
  {
    if id in ids {
      assert ids == {id};
    } else {
      assert ids == {};
    }
  }

  /** cleanupCMPResources: everything the annotations name is deleted, parents only if nobody else holds them and no user
      supplied them. */
  method CleanupCMPResources(c: Client, k: Kid.ChildClient) returns (ok: bool, ghost deleteLB: bool, ghost deleteVIP: bool)
    requires c.Valid() && k.Valid() && c.actor in c.net.services && c.net.services[c.actor].finalizer && !c.net.services[c.actor].wanted
    modifies c, k
    ensures c.Valid() && k.Valid() && c.faults <= old(c.faults) && k.faults <= old(k.faults)
    ensures c.net.services == old(c.net).services && c.net.namespace == old(c.net).namespace
    ensures deleteLB <==> !Shared(old(c.net), c.actor, old(c.net).services[c.actor].lbID) && old(c.net).services[c.actor].lbMode != PROVIDED
    ensures deleteVIP <==>
              !SharedVIP(old(c.net), c.actor, old(c.net).services[c.actor].lbID, old(c.net).services[c.actor].vipID)
              && old(c.net).services[c.actor].vipMode != PROVIDED
    ensures DeletesVIPsOnlyIf(old(c.log), c.log, deleteVIP)
    ensures ok && deleteVIP && old(c.net).services[c.actor].lbID != NO_ID ==>
              Teardown.VIPsGone(c.net, old(c.net).services[c.actor].lbID, Observed.Ids(AnnotatedGraph(old(c.net).services[c.actor]).vips))
    ensures ok ==> CleanedUp(c.net, c.net.services[c.actor], deleteLB)
    ensures forall names :: AsksFor(old(c.log), c.log, names)
    ensures ok ==> LeavesExactly(old(c.net), c.net, old(c.net).services[c.actor], KeepsLB(old(c.net), c.actor))
    ensures old(c.faults) == 0 && old(k.faults) == 0 && NothingLeft(old(c.net), old(c.net).services[c.actor], KeepsLB(old(c.net), c.actor)) ==> ok
    ensures old(c.net).issued <= c.net.issued
  {
    hide Inv, Run, Span, LeavesExactly, Shared, SharedVIP, Teardown.Entitled, Teardown.ParentIDs, RecordedListeners, Kid.WellFormedKids,
      AllGone, Kid.Shrinks, AsksFor, DeletesVIPsOnlyIf, Teardown.VIPsGone, Teardown.Outcome, NothingLeft;
    ghost var n0, l0 := c.net, c.log;
    var s := c.net.services[c.actor];
    var g := if s.graph.Some? then s.graph.value else EMPTY_GRAPH;
    var observed := new Observed.State(g, s.lbID, s.vipID, s.vipAddress, s.vsID, "");
    var lbShared := IsLBServiceShared(c.net, c.actor, s.lbID);
    var vipShared := IsVIPShared(c.net, c.actor, s.lbID, s.vipID);
    var keepLB := lbShared || s.lbMode == PROVIDED;
    deleteLB := !keepLB;
    var giveUpVIP := !vipShared && s.vipMode != PROVIDED;
    deleteVIP := giveUpVIP;
    assert observed.Mirrored() == AnnotatedGraph(s);
    CleanupIsEntitled(c.naming, n0, c.actor, s, AnnotatedGraph(s), giveUpVIP, !keepLB);
    var flags, err;
    ghost var all, kidCalls, calls;
    flags, err, all, kidCalls, calls := Teardown.CleanupStack(c, k, observed, giveUpVIP, !keepLB, true);
    SpanKeepsServices(c.actor, n0, l0, calls, c.net, c.log);
    CleanupDeletesVIPs(c.actor, n0, l0, calls, c.net, c.log, s, all, deleteVIP, deleteLB, flags, err, kidCalls, k.kids);
    CleanupAsksNothing(c.actor, n0, l0, calls, c.net, c.log, s.lbID, AnnotatedGraph(s), all, deleteVIP, deleteLB, flags, err, kidCalls, k.kids);
    ok := err.None?;
    if old(c.faults) == 0 && old(k.faults) == 0 && NothingLeft(n0, s, keepLB) {
      NothingLeftSucceeds(c.naming, n0, l0, calls, c.net, c.log, c.actor, s, all, deleteVIP, deleteLB, flags, err, kidCalls, k.kids);
    }
    if ok {
      SpanKeepsNames(c.actor, n0, l0, calls, c.net, c.log);
      CleanupCleans(c.naming, n0, c.net, c.actor, s, all, deleteVIP, deleteLB, flags, kidCalls, calls, k.kids);
      InvIsWellFormed(c.naming, c.net);
      CleanupLeavesExactly(c.naming, n0, l0, calls, c.net, c.log, c.actor, s, all, deleteVIP, deleteLB, flags, kidCalls, k.kids);
    }
  }

  /** Cleanup deletes VIPs only if it was asked to, and then, where it succeeds, all that the annotations name. */
  lemma CleanupDeletesVIPs(actor: string, n0: Net, l0: seq<Event>, calls: seq<Call>, n: Net, l: seq<Event>, s: Service, all: Teardown.Lists,
                           deleteVIP: bool, deleteLB: bool, flags: Teardown.Flags, err: Option<Teardown.Stopped>, kidCalls: seq<Kid.KidCall>,
                           k: Kid.Kids)
    requires Span(actor, n0, l0, calls, n, l)
    requires Teardown.Outcome(AnnotatedGraph(s), s.lbID, all, deleteVIP, deleteLB, true, flags, err, kidCalls, calls, n, k)
    ensures DeletesVIPsOnlyIf(l0, l, deleteVIP)
    ensures err.None? && deleteVIP && s.lbID != NO_ID ==> Teardown.VIPsGone(n, s.lbID, Observed.Ids(AnnotatedGraph(s).vips))
  {
    hide AnnotatedGraph, Teardown.Records, Teardown.ChildScript, Teardown.ChildrenGone, Teardown.Stuck, Teardown.ParentIDs, Teardown.VIPsGone,
      Teardown.ParentScript, AllGone, Later, AddsOnlyBy;
    var ids := Teardown.ParentIDs(s.lbID, AnnotatedGraph(s));
    if calls != [] {
      var lb :| lb in ids;
      Teardown.OnlyOne(ids, lb);
      ScriptDeletesVIPs(lb, all, deleteVIP, deleteLB, calls);
    }
    if err.None? && s.lbID != NO_ID {
      assert s.lbID in ids by { ScalarIsParent(s.lbID, AnnotatedGraph(s)); }
      Teardown.OneParent(ids);
      SoleParentIs(s, all, deleteVIP, deleteLB, flags, kidCalls, calls, n, k);
    }
  }

  lemma ScalarIsParent(lbID: Id, g: Graph)
    ensures lbID != NO_ID ==> lbID in Teardown.ParentIDs(lbID, g)
  {
  }

  lemma ScriptDeletesVIPs(lb: Id, all: Teardown.Lists, deleteVIP: bool, deleteLB: bool, calls: seq<Call>)
    requires calls <= Teardown.ParentScript(lb, all, deleteVIP, deleteLB)
    ensures forall i | 0 <= i < |calls| && calls[i].DeleteVIP? :: deleteVIP
  {
  }

  /** What a cleanup leaves of the Service's own listeners, recorded or not: exactly those that it has no record of, and these
      only where the load balancer is kept. */
  ghost predicate LeavesExactly(n0: Net, n: Net, s: Service, kept: bool) {
    forall id | Alive(n0, id) && n0.listeners[id].maker == s.uid ::
      if kept && id !in RecordedListeners(s) then Alive(n, id) else Gone(n, id)
  }

  /** The load balancer outlives the Service: somebody else holds it, or a user provided it. */
  predicate KeepsLB(n: Net, name: string) {
    name in n.services && (Shared(n, name, n.services[name].lbID) || n.services[name].lbMode == PROVIDED)
  }

  lemma CleanupLeavesExactly(nm: Naming, n0: Net, l0: seq<Event>, calls: seq<Call>, n: Net, l: seq<Event>, name: string, s: Service,
                             all: Teardown.Lists, deleteVIP: bool, deleteLB: bool, flags: Teardown.Flags, kidCalls: seq<Kid.KidCall>,
                             k: Kid.Kids)
    requires Inv(nm, n0) && WellFormed(n) && name in n0.services && n0.services[name] == s && Span(name, n0, l0, calls, n, l)
    requires Teardown.Outcome(AnnotatedGraph(s), s.lbID, all, deleteVIP, deleteLB, true, flags, None, kidCalls, calls, n, k)
    requires CleanedUp(n, s, deleteLB)
    ensures LeavesExactly(n0, n, s, !deleteLB)
  {
    hide Unique, MadeOnRecord, OwnParentIs, KeysFollowOwner, OwnName, Teardown.Outcome, AnnotatedGraph, ScalarCovered, RecordedListeners,
      Span, Alive, Teardown.ParentIDs, DoomedBy, Vacant, KnownListener;
    assert ServiceInv(nm, n0, name);
    MirrorCovers(s, AnnotatedGraph(s));
    Teardown.FinishedDooms(AnnotatedGraph(s), s.lbID, all, deleteVIP, deleteLB, true, flags, kidCalls, calls, n, k);
    AliveExist(n0);
    forall id | Alive(n0, id) && n0.listeners[id].maker == s.uid
      ensures if !deleteLB && id !in RecordedListeners(s) then Alive(n, id) else Gone(n, id)
    {
      if id !in RecordedListeners(s) {
        if deleteLB {
          MakersParent(nm, n0, name, id);
          SoleParentIs(s, all, deleteVIP, deleteLB, flags, kidCalls, calls, n, k);
          NothingOnVacant(name, n0, l0, calls, n, l, id);
        } else {
          AliveStays(name, n0, l0, calls, n, l, id);
        }
      }
    }
  }

  lemma AliveExist(n: Net)
    ensures forall id | Alive(n, id) :: id in n.listeners
  {
  }

  lemma MakersParent(nm: Naming, n: Net, name: string, id: Id)
    requires Inv(nm, n) && name in n.services && id in n.listeners && n.listeners[id].maker == n.services[name].uid
    ensures n.listeners[id].lb == n.services[name].lbID != NO_ID
  {
    hide Unique, NamesParent, OwnName, KeysFollowOwner, OwnParentIs;
    assert MadeOnRecord(nm, n, name, id);
    assert ServiceInv(nm, n, name);
    ParentOnRecordIsCurrent(nm, n, name, n.listeners[id].lb);
  }

  lemma SoleParentIs(s: Service, all: Teardown.Lists, deleteVIP: bool, deleteLB: bool, flags: Teardown.Flags, kidCalls: seq<Kid.KidCall>,
                     calls: seq<Call>, n: Net, k: Kid.Kids)
    requires Teardown.Outcome(AnnotatedGraph(s), s.lbID, all, deleteVIP, deleteLB, true, flags, None, kidCalls, calls, n, k)
    requires s.lbID in Teardown.ParentIDs(s.lbID, AnnotatedGraph(s))
    ensures Teardown.ParentIDs(s.lbID, AnnotatedGraph(s)) == {s.lbID}
  {
    hide AnnotatedGraph, Teardown.ParentIDs, Teardown.Records, Teardown.ChildScript, Teardown.ChildrenGone, Teardown.TornDown,
      Teardown.ParentScript;
    Teardown.OnlyOne(Teardown.ParentIDs(s.lbID, AnnotatedGraph(s)), s.lbID);
  }

  lemma NothingOnVacant(name: string, n0: Net, l0: seq<Event>, calls: seq<Call>, n: Net, l: seq<Event>, id: Id)
    requires WellFormed(n0) && WellFormed(n) && Span(name, n0, l0, calls, n, l) && id in n0.listeners && Vacant(n, n0.listeners[id].lb)
    ensures Gone(n, id)
  {
  }

  lemma LeavesExactlyLater(name: string, n0: Net, n1: Net, l1: seq<Event>, mid: Net, n: Net, s: Service, kept: bool)
    requires WellFormed(n1) && LeavesExactly(n0, n1, s, kept) && Span(name, n1, l1, [], mid, l1) && n == mid.(services := n.services)
    requires n0.issued <= n1.issued && n0.listeners.Keys <= n0.issued
    ensures LeavesExactly(n0, n, s, kept)
  {
    hide RecordedListeners;
  }

  lemma CleanupAsksNothing(actor: string, n0: Net, l0: seq<Event>, calls: seq<Call>, n: Net, l: seq<Event>, lbID: Id, g: Graph,
                           all: Teardown.Lists, deleteVIP: bool, deleteLB: bool, flags: Teardown.Flags, err: Option<Teardown.Stopped>,
                           kidCalls: seq<Kid.KidCall>, k: Kid.Kids)
    requires Span(actor, n0, l0, calls, n, l)
    requires Teardown.Outcome(g, lbID, all, deleteVIP, deleteLB, true, flags, err, kidCalls, calls, n, k)
    ensures forall names :: AsksFor(l0, l, names)
  {
    hide Span, AsksFor, AnnotatedGraph, Teardown.Records, Teardown.ChildScript, Teardown.ChildrenGone, Teardown.TornDown, Teardown.Stuck,
      Teardown.ParentScript, Teardown.ParentIDs;
    Teardown.ScriptCreatesNothing(Teardown.ParentIDs(lbID, g), all, deleteVIP, deleteLB, calls);
    forall names ensures AsksFor(l0, l, names) {
      SpanAsks(actor, n0, l0, calls, n, l, names);
    }
  }

  lemma WriteAsksNothing(l0: seq<Event>, l1: seq<Event>, l: seq<Event>, call: Call)
    requires forall names :: AsksFor(l0, l1, names)
    requires |l| == |l1| + 1 && l[..|l1|] == l1 && l[|l1|].call == call && !call.CreateListener? && !call.Patch?
    ensures forall names :: AsksFor(l0, l, names)
  {
    hide AsksFor;
    forall names ensures AsksFor(l0, l, names) {
      assert AsksFor(l0, l1, names);
      OneCallAsksNothing(l1, l, call, names);
      AsksOn(l0, l1, l, names);
    }
  }

  lemma OneCallMakesNone(l1: seq<Event>, l: seq<Event>, call: Call)
    requires |l| == |l1| + 1 && l[..|l1|] == l1 && l[|l1|].call == call && !call.CreateLB? && !call.CreateVIP?
    ensures MakesNoLB(l1, l) && MakesNoVIP(l1, l)
  {
  }

  lemma OneCallAsksNothing(l1: seq<Event>, l: seq<Event>, call: Call, names: set<string>)
    requires |l| == |l1| + 1 && l[..|l1|] == l1 && l[|l1|].call == call && !call.CreateListener? && !call.Patch?
    ensures AsksFor(l1, l, names)
  {
  }

  /** Cleanup, and after it the finalizer. */
  method Release(c: Client, k: Kid.ChildClient) returns (ok: bool)
    requires c.Valid() && k.Valid() && c.actor in c.net.services && c.net.services[c.actor].finalizer && !c.net.services[c.actor].wanted
    modifies c, k
    ensures c.Valid() && k.Valid() && c.faults <= old(c.faults) && k.faults <= old(k.faults)
    ensures ok ==>
              && c.net.services == old(c.net).services[c.actor := old(c.net).services[c.actor].(finalizer := false)]
              && AllGone(c.net, RecordedListeners(c.net.services[c.actor]))
              && LeavesExactly(old(c.net), c.net, old(c.net).services[c.actor], KeepsLB(old(c.net), c.actor))
    ensures old(c.faults) == 0 && old(k.faults) == 0 && NothingLeft(old(c.net), old(c.net).services[c.actor], KeepsLB(old(c.net), c.actor)) ==> ok
    ensures forall names :: AsksFor(old(c.log), c.log, names)
  {
    hide Inv, Run, Span, RecordedListeners, Shared, CleanedUp, AllGone, AsksFor, LeavesExactly, KeepsLB, NothingLeft;
    ghost var deleteLB, deleteVIP;
    ghost var n0 := c.net;
    InvIsWellFormed(c.naming, n0);
    ok, deleteLB, deleteVIP := CleanupCMPResources(c, k);
    if !ok {
      return;
    }
    var s := c.net.services[c.actor];
    CleanedIsGone(c.net, s, deleteLB);
    ghost var n1, l1 := c.net, c.log;
    InvIsWellFormed(c.naming, n1);
    ok := c.WriteService(RemoveFinalizer, s.(finalizer := false));
    WriteAsksNothing(old(c.log), l1, c.log, RemoveFinalizer);
    if ok {
      FreeIsGone(c.naming, c.net, c.actor);
      LeavesExactlyLater(c.actor, n0, n1, l1, c.log[|l1|].pre, c.net, n0.services[c.actor], KeepsLB(n0, c.actor));
    }
  }

  lemma CleanedIsGone(n: Net, s: Service, deleteLB: bool)
    requires CleanedUp(n, s, deleteLB)
    ensures AllGone(n, RecordedListeners(s))
  {
  }

  lemma FreeIsGone(nm: Naming, n: Net, name: string)
    requires Inv(nm, n) && name in n.services && !n.services[name].finalizer
    ensures AllGone(n, RecordedListeners(n.services[name]))
  {
    assert ServiceInv(nm, n, name);
  }

  // ----- The desired state -----

  /** What the Service asks for: the stack built from its spec, unless that is invalid, and the verdicts of the lookups that
      EnsureStack makes. `placed` says that a requested VPC is the controller's own. */
  datatype Spec = Spec(
    stack: Option<Stack>, placed: bool, networkIDExplicit: bool, networkUsable: bool, reachable: BackendMember -> bool,
    resolve: BackendMember -> Option<Kid.MemberSpec>, sha: string -> string)

  /** Deterministic names are not empty and contain no slash. */
  ghost predicate ProperNames(nm: Naming) {
    && (forall s :: '/' !in nm.lb(s))
    && (forall s, p :: nm.vs(s, p) != "" && '/' !in nm.vs(s, p))
  }

  function Renamed(nm: Naming, name: string, vss: seq<VirtualServer>): (r: seq<VirtualServer>)
    ensures |r| == |vss| && forall i | 0 <= i < |vss| :: r[i] == vss[i].(name := nm.vs(name, vss[i].frontendPort))
  {
    if vss == [] then []
    else
      var n := |vss| - 1;
      Renamed(nm, name, vss[..n]) + [vss[n].(name := nm.vs(name, vss[n].frontendPort))]
  }

  /** The names of the listeners that a Service asks for. */
  function NamesOf(nm: Naming, name: string, spec: Spec): set<string> {
    Recovery.Names(if spec.stack.Some? then Renamed(nm, name, spec.stack.value.virtualServers) else [])
  }

  /** The stack with the names and the owner that the controller gives it. */
  function ForService(nm: Naming, namespace: string, name: string, s: Service, stack: Stack): Stack {
    stack.(lbService := stack.lbService.(name := nm.lb(name), ownership := Ownership("Service", namespace, name, s.uid, s.group)),
           vip := stack.vip.(ownership := Ownership("Service", namespace, name, s.uid, s.group)),
           virtualServers := Renamed(nm, name, stack.virtualServers))
  }

  /** The Service's graph records listeners under their own names, and different ones under different names. */
  ghost predicate InOrder(n: Net, name: string) {
    name in n.services && (n.services[name].graph.Some? ==>
      NamesMatch(n, n.services[name].graph.value) && ListenerIDsApart(n.services[name].graph.value))
  }

  lemma InOrderIsOrderly(nm: Naming, n: Net, name: string, g: Graph, stack: Stack)
    requires Inv(nm, n) && InOrder(n, name)
    requires g.virtualServers == map[] || (n.services[name].graph.Some? && g.virtualServers == n.services[name].graph.value.virtualServers)
    ensures Orderly(n, g, stack, NO_ID)
  {
    hide WellFormed, Unique, MadeOnRecord, OwnParentIs, KeysFollowOwner, OwnName, ScalarCovered;
    assert ServiceInv(nm, n, name);
    forall key | key in g.virtualServers && g.virtualServers[key].externalID != NO_ID ensures g.virtualServers[key].externalID in n.issued {
      assert g.virtualServers[key].externalID in RecordedListeners(n.services[name]);
    }
  }

  lemma OwnGraphFits(nm: Naming, n: Net, name: string)
    requires Inv(nm, n) && name in n.services && n.services[name].graph.Some?
    ensures var g := n.services[name].graph.value;
            && KeysFollowOwner(nm, n.namespace, g) && ScalarCovered(n.services[name].vsID, g) && n.services[name].lbID != NO_ID
            && Observed.Ids(g.virtualServers) <= RecordedListeners(n.services[name])
  {
    hide WellFormed, Unique, MadeOnRecord, OwnParentIs, KnownListener;
    assert ServiceInv(nm, n, name);
  }

  function RecordOf(s: Service): Graph {
    if s.graph.Some? then s.graph.value else EMPTY_GRAPH
  }

  /** What EnsureStack is asked for. */
  function RequestOf(nm: Naming, namespace: string, name: string, s: Service, spec: Spec): Request
    requires spec.stack.Some?
  {
    Request(ForService(nm, namespace, name, s, spec.stack.value), StrictLB(namespace, s, name), StrictVIP(namespace, s, name),
            spec.networkIDExplicit, spec.networkUsable, true, spec.reachable, spec.resolve, spec.sha)
  }

  /** The state that EnsureStack starts from: the annotations, or a sibling's parents where there is no load balancer yet. */
  method ReadState(c: Client) returns (observed: Observed.State)
    requires c.Valid() && c.actor in c.net.services
    requires c.net.services[c.actor].vipID != NO_ID ==> c.net.services[c.actor].lbID != NO_ID
    ensures fresh(observed) && observed.vsID == NO_ID
    ensures StartsFrom(c.net, c.actor, observed.lbID, observed.vipID)
    ensures var s := c.net.services[c.actor];
            && (s.lbID != NO_ID ==> observed.lbID == s.lbID) && (s.vipID != NO_ID ==> observed.vipID == s.vipID)
            && KeysFollowOwner(c.naming, c.net.namespace, observed.graph) && ScalarCovered(s.vsID, observed.graph)
            && Observed.Ids(observed.graph.virtualServers) <= RecordedListeners(s)
            && (observed.graph.virtualServers == map[]
                || (s.graph.Some? && observed.graph.virtualServers == s.graph.value.virtualServers))
            && (observed.lbID != NO_ID ==> Reaches(c.net, c.actor, observed.lbID))
            && (s.vipID == NO_ID && observed.vipID != NO_ID ==> s.lbID == NO_ID && observed.vipID in Observed.Ids(observed.graph.vips))
            && (s.lbID != NO_ID ==> observed.graph.lbServices == RecordedParents(s) && observed.graph.vips == VIPEntries(s))
            && (s.lbID != NO_ID ==> observed.graph == RecordOf(s) && observed.vipID == s.vipID && observed.vipAddress == s.vipAddress)
  {
    hide Inv, Run, KeysFollowOwner, RecordedListeners, OffersLB, Offered;
    var s := c.net.services[c.actor];
    EmptyGraphFits(c.naming, c.net, s);
    if s.graph.Some? {
      OwnGraphFits(c.naming, c.net, c.actor);
    }
    observed := new Observed.State(if s.graph.Some? then s.graph.value else EMPTY_GRAPH, s.lbID, s.vipID, s.vipAddress, NO_ID, "");
    if s.lbID == NO_ID && s.group != "" {
      var parent := SharedParent(c.net, c.actor);
      if parent.Some? {
        ParentStateFits(c.naming, c.net, c.actor, parent.value);
        SharedIsReached(c.net, c.actor, parent.value);
        observed.lbID, observed.vipID, observed.vipAddress := parent.value.lb.externalID, parent.value.vip.externalID, parent.value.vip.address;
        observed.graph := ParentState(parent.value);
      }
    }
  }

  lemma SharedIsReached(n: Net, self: string, p: Parent)
    requires self in n.services && n.services[self].lbID == NO_ID && n.services[self].group != ""
    requires Offered(n, self, p)
    ensures Reaches(n, self, p.lb.externalID) && p.vip.externalID in Observed.Ids(ParentState(p).vips)
  {
    var group := n.services[self].group;
    var t :| Sibling(n, self, t) && OffersParent(n.services[t].graph.value, group, p);
    var g := n.services[t].graph.value;
    var key :| key in g.lbServices && g.lbServices[key] == p.lb;
    assert OfGroup(g.vips[p.vipKey], group);
    assert OffersLB(g, group, p.lb.externalID);
    assert Offers(n, t, group, p.lb.externalID);
    assert ParentState(p).vips[p.vipKey] == p.vip;
  }

  lemma EmptyGraphFits(nm: Naming, n: Net, s: Service)
    ensures KeysFollowOwner(nm, n.namespace, EMPTY_GRAPH) && ScalarCovered(s.vsID, EMPTY_GRAPH)
    ensures Observed.Ids(EMPTY_GRAPH.virtualServers) == {} <= RecordedListeners(s)
  {
  }

  lemma StateBegins(nm: Naming, n: Net, name: string, s: Service, req: Request, stack: Stack, g: Graph, graph: Graph, lbID: Id, vipID: Id)
    requires ProperNames(nm) && name in n.services && n.services[name] == s && s.finalizer && s.wanted
    requires (lbID != NO_ID ==> Reaches(n, name, lbID)) && (s.vipID != NO_ID ==> s.lbID != NO_ID)
    requires s.vipID == NO_ID && vipID != NO_ID ==> s.lbID == NO_ID && vipID in Observed.Ids(graph.vips)
    requires s.lbID != NO_ID ==> g.lbServices == RecordedParents(s) && g.vips == graph.vips == VIPEntries(s)
    requires (s.lbID != NO_ID ==> lbID == s.lbID) && (s.vipID != NO_ID ==> vipID == s.vipID)
    requires KeysFollowOwner(nm, n.namespace, graph) && ScalarCovered(s.vsID, graph) && Observed.Ids(graph.virtualServers) <= RecordedListeners(s)
    requires req.stack == ForService(nm, n.namespace, name, s, stack)
    requires req.strictLB == Strict(n.namespace, s, name, s.lbMode, s.lbID, g.lbServices)
    requires req.strictVIP == Strict(n.namespace, s, name, s.vipMode, s.vipID, g.vips)
    ensures Begins(nm, n, name, req, graph, lbID, vipID, NO_ID)
  {
    hide KeysFollowOwner, ScalarCovered, RecordedListeners, OwnsEntry, Reaches;
    assert Observed.LEGACY_VS[6] == '/' && Observed.LEGACY_LB[6] == '/';
    forall i | 0 <= i < |req.stack.virtualServers|
      ensures req.stack.virtualServers[i].name !in {"", Observed.LEGACY_VS} && OwnName(nm, name, req.stack.virtualServers[i].name)
    {
      assert Named(nm, name, req.stack.virtualServers[i].name, req.stack.virtualServers[i].frontendPort);
    }
  }

  // ----- Publishing the result -----

  /** The annotations after a successful pass. */
  function Published(t: Service, req: Request, g: Graph, lb: Id, vip: Id, address: string, vsID: Id): Service {
    t.(lbID := lb, lbMode := ModeOf(t.lbMode, req.strictLB, lb), vipID := vip, vipMode := ModeOf(t.vipMode, req.strictVIP, vip),
       vipAddress := if address != "" then address else t.vipAddress, vsID := vsID, graph := Some(g))
  }

  lemma PublishingIsAllowed(nm: Naming, n: Net, name: string, s: Service, req: Request, g: Graph, lb: Id, vip: Id, address: string, vsID: Id,
                            scalar: Id, front: Frontend)
    requires Inv(nm, n) && Publishable(nm, n, name, s, req, g, lb, vip, vsID) && KeepsVIP(n, name, lb, vip, front)
    requires scalar == NO_ID || scalar in Observed.Ids(g.virtualServers)
    ensures PatchGuard(nm, n, name, Published(n.services[name], req, g, lb, vip, address, scalar), front)
  {
    hide Inv, KeepsVIP, OwnName, OwnedBy, RecordsParent, Unused, KeysFollowOwner, OwnParentIs, NamesParent;
    ParentsAreBuckets(nm, n, name, g, lb);
  }

  /** The scalar listener id: the one at hand, else the one on record for the last port. */
  ghost predicate IsScalar(nm: Naming, name: string, stack: Stack, g: Graph, vsID: Id, id: Id) {
    if vsID != NO_ID then id == vsID
    else if stack.ports != [] then IsOnRecord(g.virtualServers, nm.vs(name, stack.ports[|stack.ports| - 1].frontendPort), id)
    else id == NO_ID
  }

  predicate IsOnRecord(bucket: Bucket, key: string, id: Id) {
    if key in bucket then bucket[key].externalID == id else id == NO_ID
  }

  /** The last port's listener stands in where the stack has several. */
  method ScalarID(observed: Observed.State, nm: Naming, name: string, stack: Stack) returns (id: Id)
    requires observed.vsID == NO_ID || observed.vsID in Observed.Ids(observed.graph.virtualServers)
    ensures id == NO_ID || id in Observed.Ids(observed.graph.virtualServers)
    ensures IsScalar(nm, name, stack, observed.graph, observed.vsID, id)
  {
    id := observed.vsID;
    if id == NO_ID && stack.ports != [] {
      id := GraphKeys.IDAt(observed.graph.virtualServers, nm.vs(name, stack.ports[|stack.ports| - 1].frontendPort));
    }
  }

  /** The result is written: `n` has become `mid` meanwhile, and then `now`. */
  ghost predicate Publishes(nm: Naming, actor: string, n: Net, l: seq<Event>, mid: Net, now: Net, req: Request, g: Graph, lb: Id, vip: Id, address: string,
                            vsID: Id, scalar: Id) {
    && IsScalar(nm, actor, req.stack, g, vsID, scalar) && (scalar == NO_ID || scalar in Observed.Ids(g.virtualServers))
    && mid.services == n.services && Span(actor, n, l, [], mid, l) && WellFormed(mid) && actor in mid.services
    && now == mid.(services := mid.services[actor := Published(mid.services[actor], req, g, lb, vip, address, scalar)])
  }

  /** The final patch of a pass. */
  method Publish(c: Client, observed: Observed.State, req: Request, ghost s: Service, ghost front: Frontend) returns (ok: bool)
    requires c.Valid() && KeepsVIP(c.net, c.actor, observed.lbID, observed.vipID, front)
    requires Publishable(c.naming, c.net, c.actor, s, req, observed.graph, observed.lbID, observed.vipID, observed.vsID)
    requires observed.vsID == NO_ID || observed.vsID in Observed.Ids(observed.graph.virtualServers)
    modifies c
    ensures c.Valid() && c.faults <= old(c.faults) && NamesLater(old(c.net), c.net) && AsksFor(old(c.log), c.log, front.names)
    ensures MakesNoLB(old(c.log), c.log) && MakesNoVIP(old(c.log), c.log)
    ensures c.quiet ==> OnlyWrites(old(c.net), old(c.log), c.net, c.log)
    ensures !ok ==> c.faults < old(c.faults)
    ensures ok ==> exists mid: Net, scalar: Id ::
                Publishes(c.naming, c.actor, old(c.net), old(c.log), mid, c.net, req, observed.graph, observed.lbID, observed.vipID, observed.vipAddress,
                          observed.vsID, scalar)
  {
    hide Inv, Run, Publishable, PatchGuard, Span, WellFormed, NamesLater, KeepsVIP;
    ghost var n0, l0 := c.net, c.log;
    PublishableSays(c.naming, n0, c.actor, s, req, observed.graph, observed.lbID, observed.vipID, observed.vsID);
    var scalar := ScalarID(observed, c.naming, c.actor, req.stack);
    PublishingIsAllowed(c.naming, n0, c.actor, s, req, observed.graph, observed.lbID, observed.vipID, observed.vipAddress, observed.vsID, scalar,
                        front);
    AnchoredSays(c.naming, n0, c.actor, observed.lbID);
    var to := Published(c.net.services[c.actor], req, observed.graph, observed.lbID, observed.vipID, observed.vipAddress, scalar);
    ok := c.WriteService(Patch(to, front), to);
    ghost var mid := c.log[|l0|].pre;
    OneCallMakesNone(l0, c.log, Patch(to, front));
    SpanKeepsServices(c.actor, n0, l0, [], mid, l0);
    SpanKeepsNames(c.actor, n0, l0, [], mid, l0);
    WriteKeepsNames(n0, mid, c.net);
    InvIsWellFormed(c.naming, c.net);
    if ok {
      RewriteKeepsShape(c.net, mid);
      assert Publishes(c.naming, c.actor, n0, l0, mid, c.net, req, observed.graph, observed.lbID, observed.vipID, observed.vipAddress, observed.vsID, scalar);
    }
  }

  lemma WriteKeepsNames(n: Net, m: Net, now: Net)
    requires NamesLater(n, m) && now == m.(services := now.services)
    ensures NamesLater(n, now)
  {
  }

  lemma RewriteKeepsShape(n: Net, m: Net)
    requires WellFormed(n) && n == m.(services := n.services)
    ensures WellFormed(m)
  {
  }

  // ----- Reconcile -----

  /** The subnet in which a pass of the Service looks for a VIP on the load balancer. */
  function SubnetFor(n: Net, self: string, spec: Spec, lb: Id): string
    requires spec.stack.Some?
  {
    if self in n.services && StrictLB(n.namespace, n.services[self], self) && !spec.networkIDExplicit && lb != NO_ID && lb in n.lbs
    then n.lbs[lb].networkID
    else spec.stack.value.lbService.networkID
  }

  /** A load balancer that lasts is kept, and no other one is created; and so it is with a VIP on it. */
  ghost predicate KeepsPair(n0: Net, n: Net, self: string, spec: Spec, lb: Id, vip: Id, l0: seq<Event>, l: seq<Event>, ok: bool) {
    Lasting(n0, lb) ==>
      && MakesNoLB(l0, l) && (ok ==> self in n.services && n.services[self].lbID == lb)
      && (spec.stack.Some? && LastingVIP(n0, lb, SubnetFor(n0, self, spec, lb), vip) ==>
            MakesNoVIP(l0, l) && (ok ==> n.services[self].vipID == vip))
  }

  /** The pass works on the pair that it starts from. */
  ghost predicate KeepsToPair(n0: Net, n: Net, self: string, spec: Spec, l0: seq<Event>, l: seq<Event>, ok: bool) {
    exists lb, vip :: StartsFrom(n0, self, lb, vip) && KeepsPair(n0, n, self, spec, lb, vip, l0, l, ok)
  }

  lemma PassKeepsPair(n0: Net, n: Net, self: string, spec: Spec, req: Request, lb: Id, vip: Id, l0: seq<Event>, l1: seq<Event>, l: seq<Event>,
                      ok: bool, lb1: Id, vip1: Id, published: bool)
    requires self in n0.services && spec.stack.Some? && StartsFrom(n0, self, lb, vip)
    requires req.strictLB == StrictLB(n0.namespace, n0.services[self], self) && req.networkIDExplicit == spec.networkIDExplicit
    requires req.stack.lbService.networkID == spec.stack.value.lbService.networkID
    requires StaysWith(n0, req, lb, vip, l0, l1, ok, lb1, vip1) && MakesNoLB(l1, l) && MakesNoVIP(l1, l)
    requires published ==> ok && self in n.services && n.services[self].lbID == lb1 && n.services[self].vipID == vip1
    ensures KeepsToPair(n0, n, self, spec, l0, l, published)
  {
    hide MakesNoLB, MakesNoVIP, LastingVIP, StrictLB, StartsFrom;
    MakesNoneOn(l0, l1, l);
    assert KeepsPair(n0, n, self, spec, lb, vip, l0, l, published);
  }

  /** The listener for one port is on record under the Service's name for that port. Unless its load balancer goes, it stays,
      on the Service's load balancer and VIP, with the port and the protocol asked for. */
  ghost predicate Serves(nm: Naming, n: Net, name: string, vs: VirtualServer, id: Id) {
    && name in n.services && n.services[name].graph.Some?
    && var t, key := n.services[name], nm.vs(name, vs.frontendPort);
    && key in t.graph.value.virtualServers && t.graph.value.virtualServers[key].externalID == id != NO_ID
    && (t.lbID in n.lbs ==> id in n.listeners && n.listeners[id].status != DELETING)
    && (id in n.listeners ==>
          n.listeners[id].lb == t.lbID && n.listeners[id].name == key && VirtualServers.OnFrontend(n.listeners[id], t.vipID, vs))
  }

  /** The record has the digest of the configuration and the backends that are asked for. */
  ghost predicate Digested(nm: Naming, s: Service, name: string, stack: Stack, vs: VirtualServer, sha: string -> string) {
    var key := nm.vs(name, vs.frontendPort);
    && s.graph.Some? && key in s.graph.value.virtualServers
    && exists backends :: AreBackends(stack, vs, backends)
         && s.graph.value.virtualServers[key].desiredHash == DesiredHash.ServerHash(sha, vs.(name := key), backends)
  }

  /** Each port that is asked for is served, by a listener of its own, and the record is in order for the next pass. */
  ghost predicate Served(nm: Naming, n: Net, name: string, stack: Stack, sha: string -> string) {
    && InOrder(n, name)
    && (forall vs | vs in stack.virtualServers :: Digested(nm, n.services[name], name, stack, vs, sha))
    && exists ids: seq<Id> ::
         |ids| == |stack.virtualServers| && Different(ids) && forall j | 0 <= j < |ids| :: Serves(nm, n, name, stack.virtualServers[j], ids[j])
  }

  predicate Different(ids: seq<Id>) {
    forall i, j | 0 <= i < |ids| && 0 <= j < |ids| && ids[i] == ids[j] :: i == j
  }

  /** The ports have different names. */
  ghost predicate NamesApart(nm: Naming, name: string, vss: seq<VirtualServer>) {
    forall i, j | 0 <= i < |vss| && 0 <= j < |vss| && nm.vs(name, vss[i].frontendPort) == nm.vs(name, vss[j].frontendPort) :: i == j
  }

  /** The recorded load balancer, as long as it exists, is in the VPC and the region asked for. */
  ghost predicate PlacedFor(n: Net, name: string, asked: LBService) {
    name in n.services && (n.services[name].lbID in n.lbs ==>
      LBServices.Placed(n.lbs[n.services[name].lbID], Placement("", asked.vpcID, asked.region)))
  }

  lemma StandingServes(nm: Naming, n: Net, name: string, g: Graph, s: Service, req: Request, stack: Stack, given: Stack, ids: seq<Id>)
    requires stack == req.stack && Hashed(g, req, |ids|)
    requires name in n.services && Standing(n, g, n.services[name].lbID, n.services[name].vipID, stack, ids)
    requires |ids| == |stack.virtualServers| && n.services[name].graph == Some(g) && stack == ForService(nm, n.namespace, name, s, given)
    requires InOrder(n, name)
    ensures Served(nm, n, name, given, req.sha)
  {
    hide VirtualServers.OnFrontend, InOrder, Renamed, AreBackends, StackBackends, DesiredHash.ServerHash, Hashed, Digested;
    forall vs | vs in given.virtualServers ensures Digested(nm, n.services[name], name, given, vs, req.sha) {
      var j :| 0 <= j < |given.virtualServers| && given.virtualServers[j] == vs;
      EntryDigests(nm, n.namespace, n.services[name], name, s, req, given, g, |ids|, j);
    }
    forall j | 0 <= j < |ids| ensures Serves(nm, n, name, given.virtualServers[j], ids[j]) {
      assert stack.virtualServers[j] == given.virtualServers[j].(name := nm.vs(name, given.virtualServers[j].frontendPort));
      SameFrontend(n, ids[j], n.services[name].vipID, given.virtualServers[j], stack.virtualServers[j]);
    }
  }

  lemma EntryDigests(nm: Naming, namespace: string, t: Service, name: string, s: Service, req: Request, given: Stack, g: Graph, count: nat, j: nat)
    requires t.graph == Some(g) && req.stack == ForService(nm, namespace, name, s, given) && Hashed(g, req, count)
    requires j < count && j < |given.virtualServers|
    ensures Digested(nm, t, name, given, given.virtualServers[j], req.sha)
  {
    hide StackBackends, DesiredHash.ServerHash, Renamed;
    var vs, named := given.virtualServers[j], req.stack.virtualServers[j];
    assert named == vs.(name := nm.vs(name, vs.frontendPort));
    assert EntryIs(g, req, named);
    BackendsMean(req.stack, named);
    assert AreBackends(given, vs, StackBackends(req.stack, named));
  }

  lemma SameFrontend(n: Net, id: Id, vip: Id, vs: VirtualServer, named: VirtualServer)
    requires named == vs.(name := named.name)
    ensures id in n.listeners && VirtualServers.OnFrontend(n.listeners[id], vip, named) ==> VirtualServers.OnFrontend(n.listeners[id], vip, vs)
  {
  }

  lemma ApartNamesFit(nm: Naming, namespace: string, name: string, s: Service, given: Stack)
    requires ProperNames(nm)
    ensures NamesApart(nm, name, given.virtualServers) ==> Convergence.NamesFit(ForService(nm, namespace, name, s, given).virtualServers)
  {
    hide Renamed;
  }

  lemma PublishedServes(actor: string, n0: Net, l0: seq<Event>, mid: Net, n: Net, k0: Kid.Kids, given: Graph, k: Kid.Kids, s: Service,
                        req: Request, g: Graph, lb: Id, vip: Id, address: string, vsID: Id, scalar: Id, ids: seq<Id>, nm: Naming,
                        given0: Stack, s0: Service)
    requires req.stack == ForService(nm, n.namespace, actor, s0, given0)
    requires WellFormed(n0) && WellFormed(mid) && Span(actor, n0, l0, [], mid, l0)
    requires Achieved(n0, k0, given, k, g, lb, vip, req, vsID, ids)
    requires n == mid.(services := mid.services[actor := Published(s, req, g, lb, vip, address, scalar)])
    ensures Served(nm, n, actor, given0, req.sha)
  {
    hide ForService, Served, InOrder, Span, WellFormed, Orderly, AllDone, ListenersSettled, PoolsSettled, Convergence.KidsDistinct, Fit,
      DeletedBy, NamesLater;
    NoneDoomed();
    StandingStays(actor, n0, l0, [], mid, l0, g, lb, vip, req.stack, ids);
    SpanKeepsNames(actor, n0, l0, [], mid, l0);
    NoEmptyListener(mid);
    OrderlyLater(n0, mid, g, g, req.stack, vsID);
    OrderlyIsInOrder(mid, n, actor, g, req.stack, vsID);
    StandingElsewhere(mid, n, g, lb, vip, req.stack, ids);
    StandingServes(nm, n, actor, g, s0, req, req.stack, given0, ids);
  }

  lemma OrderlyIsInOrder(mid: Net, n: Net, name: string, g: Graph, stack: Stack, vsID: Id)
    requires Orderly(mid, g, stack, vsID) && n == mid.(services := n.services)
    requires name in n.services && n.services[name].graph == Some(g)
    ensures InOrder(n, name)
  {
  }

  lemma StandingElsewhere(mid: Net, n: Net, g: Graph, lb: Id, vip: Id, stack: Stack, ids: seq<Id>)
    requires Standing(mid, g, lb, vip, stack, ids) && n == mid.(services := n.services)
    ensures Standing(n, g, lb, vip, stack, ids)
  {
    hide VirtualServers.OnFrontend;
  }

  /** A mode that is set stays; a new one says whether the parent was treated strictly. */
  predicate ModeFollows(before: string, strict: bool, after: string) {
    after == if before != "" then before else if strict then PROVIDED else MANAGED
  }

  /** The record offers the pair to the Service's group; the VIP, as long as it exists, is on the load balancer and has the
      address, if one is known. */
  ghost predicate OffersPair(n: Net, s: Service, address: string) {
    && VIPStands(n, s.lbID, "", s.vipID, address)
    && s.graph.Some? && exists p :: OffersParent(s.graph.value, s.group, p) && p.lb.externalID == s.lbID && p.vip.externalID == s.vipID
                                    && p.vip.address == address
  }

  /** What a pass announces: the modes, the id of the only or the last port's listener, and the pair with the VIP's address. `s` is the
      Service before the pass. */
  ghost predicate Announces(nm: Naming, n: Net, name: string, s: Service, strictLB: bool, strictVIP: bool, stack: Stack) {
    && name in n.services && n.services[name].graph.Some? && var t := n.services[name];
    && ModeFollows(s.lbMode, strictLB, t.lbMode) && ModeFollows(s.vipMode, strictVIP, t.vipMode)
    && (exists vsID ::
          && (if |stack.virtualServers| == 1 then IsOnRecord(t.graph.value.virtualServers, nm.vs(name, stack.virtualServers[0].frontendPort), vsID)
              else vsID == NO_ID)
          && IsScalar(nm, name, stack, t.graph.value, vsID, t.vsID))
    && (stack.vip.name != Observed.LEGACY_VIP ==>
          exists address :: OffersPair(n, t, address) && t.vipAddress == if address != "" then address else s.vipAddress)
  }

  lemma PublishedAnnounces(nm: Naming, namespace: string, name: string, s: Service, spec: Spec, req: Request, given: Graph, n1: Net, n: Net,
                           t: Service, g: Graph, lb: Id, vip: Id, address: string, vsID: Id, scalar: Id, subnet: string)
    requires ProperNames(nm) && spec.stack.Some? && req == RequestOf(nm, namespace, name, s, spec) && NamesLater(n1, n)
    requires ParentsReturned(given, g, req.stack, lb, vip, address) && VIPStands(n1, lb, subnet, vip, address)
    requires ScalarFollows(req.stack, NO_ID, g, vsID) && IsScalar(nm, name, req.stack, g, vsID, scalar)
    requires lb != NO_ID && vip != NO_ID
    requires t == s.(lbID := lb, lbMode := ModeOf(s.lbMode, req.strictLB, lb), graph := t.graph)
    requires name in n.services && n.services[name] == Published(t, req, g, lb, vip, address, scalar)
    ensures Announces(nm, n, name, s, req.strictLB, req.strictVIP, spec.stack.value)
  {
    hide NamesLater, VIPStands, StrictLB, StrictVIP;
    VIPStays(n1, n, lb, subnet, vip, address);
    StandsAnywhere(n, lb, subnet, vip, address);
    assert Observed.LEGACY_LB[6] == '/';
    assert IsScalar(nm, name, spec.stack.value, g, vsID, scalar);
    if spec.stack.value.vip.name != Observed.LEGACY_VIP {
      var p := Parent(ParentEntry(req.stack, lb), req.stack.vip.name, VIPEntry(req.stack, vip, address));
      assert g.lbServices[req.stack.lbService.name] == p.lb;
      assert OffersParent(g, s.group, p);
      assert OffersPair(n, n.services[name], address);
    }
  }

  /** What one Service announces is what another member of its group, without a load balancer, starts from. */
  lemma MembersCanJoin(nm: Naming, n: Net, name: string, s: Service, strictLB: bool, strictVIP: bool, stack: Stack, other: string)
    requires Announces(nm, n, name, s, strictLB, strictVIP, stack) && stack.vip.name != Observed.LEGACY_VIP
    requires other in n.services && other != name && n.services[other].lbID == NO_ID
    requires n.services[other].group == n.services[name].group != ""
    ensures Joins(n, other) && StartsFrom(n, other, n.services[name].lbID, n.services[name].vipID)
  {
    hide OffersParent, VIPStands, IsScalar, ModeFollows;
    var address :| OffersPair(n, n.services[name], address);
    var p :| OffersParent(n.services[name].graph.value, n.services[name].group, p)
      && p.lb.externalID == n.services[name].lbID && p.vip.externalID == n.services[name].vipID;
    assert Sibling(n, other, name) && Offered(n, other, p);
  }

  lemma StandsAnywhere(n: Net, lb: Id, subnet: string, vip: Id, address: string)
    requires VIPStands(n, lb, subnet, vip, address)
    ensures VIPStands(n, lb, "", vip, address)
  {
  }

  datatype Verdict = Ignored | Rejected | Released | Unfinished | Ensured

  /** The spec is valid, and no VIP is supplied without a load balancer. */
  predicate Acceptable(s: Service, spec: Spec) {
    spec.stack.Some? && spec.placed && (s.vipID == NO_ID || s.lbID != NO_ID)
  }

  /** What Reconcile promises, by verdict. */
  ghost predicate Reconciled(nm: Naming, n0: Net, n: Net, name: string, spec: Spec, v: Verdict) {
    match v
    case Ignored => n == n0 && (name in n0.services ==> !n0.services[name].wanted && !n0.services[name].finalizer)
    case Rejected => n == n0 && name in n0.services && n0.services[name].wanted && !Acceptable(n0.services[name], spec)
    case Released =>
      && name in n.services && !n.services[name].wanted && !n.services[name].finalizer
      && AllGone(n, RecordedListeners(n.services[name]))
      && name in n0.services && LeavesExactly(n0, n, n0.services[name], KeepsLB(n0, name))
    case Unfinished =>
      && name in n0.services
      && (if n0.services[name].wanted then Acceptable(n0.services[name], spec) else n0.services[name].finalizer)
    case Ensured =>
      && name in n0.services && n0.services[name].wanted && Acceptable(n0.services[name], spec)
      && name in n.services && n.services[name].finalizer && spec.stack.Some?
      && RecordsParent(n, name, n.services[name].lbID) && PlacedFor(n, name, spec.stack.value.lbService)
      && Announces(nm, n, name, n0.services[name], StrictLB(n0.namespace, n0.services[name], name), StrictVIP(n0.namespace, n0.services[name], name),
                   spec.stack.value)
      && (InOrder(n0, name) && NamesApart(nm, name, spec.stack.value.virtualServers) ==>
            Served(nm, n, name, spec.stack.value, spec.sha))
  }

  /** Before the pass there was at most the write of the finalizer. */
  lemma KeepsToPairEarlier(nm: Naming, n0: Net, mid: Net, n1: Net, n: Net, self: string, spec: Spec, l0: seq<Event>, l1: seq<Event>,
                           l: seq<Event>, ok: bool)
    requires WellFormed(n0) && WellFormed(mid) && Span(self, n0, l0, [], mid, l0) && n1 == mid.(services := n1.services)
    requires self in n0.services && n1.services == n0.services[self := n0.services[self].(finalizer := true)]
    requires MakesNoLB(l0, l1) && MakesNoVIP(l0, l1) && KeepsToPair(n1, n, self, spec, l1, l, ok)
    ensures KeepsToPair(n0, n, self, spec, l0, l, ok)
  {
    hide Span, WellFormed, MakesNoLB, MakesNoVIP, LastingVIP, StillThere, OffersParent;
    var lb, vip :| StartsFrom(n1, self, lb, vip) && KeepsPair(n1, n, self, spec, lb, vip, l1, l, ok);
    SpanKeepsServices(self, n0, l0, [], mid, l0);
    ReadsLeaveParents(self, n0, l0, mid, l0, lb);
    WritesLeaveParents(mid, n1, lb);
    StillThereChains(n0, mid, n1, lb);
    StillLasting(n0, n1, lb);
    MakesNoneOn(l0, l1, l);
    SameStart(n0, n1, self, lb, vip);
    if spec.stack.Some? {
      SameSubnetFor(n0, n1, self, spec, lb);
    }
  }

  lemma SameStart(n0: Net, n1: Net, self: string, lb: Id, vip: Id)
    requires self in n0.services && n1.services == n0.services[self := n0.services[self].(finalizer := true)] && StartsFrom(n1, self, lb, vip)
    ensures StartsFrom(n0, self, lb, vip)
  {
    hide OffersParent;
    forall p ensures Offered(n0, self, p) == Offered(n1, self, p) {
      forall t ensures Sibling(n0, self, t) == Sibling(n1, self, t) {}
    }
  }

  lemma SameSubnetFor(n0: Net, n1: Net, self: string, spec: Spec, lb: Id)
    requires self in n0.services && n1.services == n0.services[self := n0.services[self].(finalizer := true)] && n1.namespace == n0.namespace
    requires spec.stack.Some? && StillThere(n0, n1, lb)
    ensures Lasting(n0, lb) ==> SubnetFor(n1, self, spec, lb) == SubnetFor(n0, self, spec, lb)
  {
  }

  lemma AnnouncesAsBefore(nm: Naming, n: Net, name: string, namespace: string, s: Service, spec: Spec)
    requires spec.stack.Some?
    ensures var t := s.(finalizer := true);
            Announces(nm, n, name, t, StrictLB(namespace, t, name), StrictVIP(namespace, t, name), spec.stack.value) ==>
              Announces(nm, n, name, s, StrictLB(namespace, s, name), StrictVIP(namespace, s, name), spec.stack.value)
  {
    hide OwnsEntry, IsScalar, OffersPair, IsOnRecord;
  }

  /** Nothing was done yet. */
  lemma KeepsToPairSoFar(n0: Net, n: Net, self: string, spec: Spec, l0: seq<Event>, l: seq<Event>)
    requires self in n0.services && MakesNoLB(l0, l) && MakesNoVIP(l0, l)
    ensures KeepsToPair(n0, n, self, spec, l0, l, false)
  {
    hide MakesNoLB, MakesNoVIP, LastingVIP, Lasting, Offered, SubnetFor;
    if Joins(n0, self) {
      var p :| Offered(n0, self, p);
      assert StartsFrom(n0, self, p.lb.externalID, p.vip.externalID);
      assert KeepsPair(n0, n, self, spec, p.lb.externalID, p.vip.externalID, l0, l, false);
    } else {
      assert StartsFrom(n0, self, n0.services[self].lbID, n0.services[self].vipID);
      assert KeepsPair(n0, n, self, spec, n0.services[self].lbID, n0.services[self].vipID, l0, l, false);
    }
  }

  /** serviceReconciler.Reconcile */
  method Reconcile(c: Client, k: Kid.ChildClient, spec: Spec) returns (v: Verdict)
    requires c.Valid() && k.Valid() && ProperNames(c.naming)
    modifies c, k
    ensures c.Valid() && k.Valid() && c.faults <= old(c.faults) && k.faults <= old(k.faults)
    ensures Reconciled(c.naming, old(c.net), c.net, c.actor, spec, v)
    ensures c.actor in old(c.net).services && old(c.net).services[c.actor].wanted ==>
              KeepsToPair(old(c.net), c.net, c.actor, spec, old(c.log), c.log, v == Ensured)
    ensures c.actor in old(c.net).services && !old(c.net).services[c.actor].wanted && old(c.net).services[c.actor].finalizer
            && old(c.faults) == 0 && old(k.faults) == 0
            && NothingLeft(old(c.net), old(c.net).services[c.actor], KeepsLB(old(c.net), c.actor)) ==>
              v == Released
    ensures c.quiet && old(Rests(c.naming, c.net, k.kids, c.actor, spec)) ==>
              && OnlyWrites(old(c.net), old(c.log), c.net, c.log) && k.kids == old(k.kids) && k.calls == old(k.calls)
              && (old(c.faults) == 0 && old(k.faults) == 0 ==> v == Ensured)
    ensures AsksFor(old(c.log), c.log, NamesOf(c.naming, c.actor, spec))
  {
    hide Announces, StrictLB, StrictVIP, AtRest, Answerable, OnlyWrites, NamesApart, NothingLeft, KeepsToPair, MakesNoLB, MakesNoVIP, Inv,
      Run, Span, Begins, RecordedListeners, AllGone, Served, InOrder, ForService, Convergence.NamesFit, Kid.WellFormedKids, RecordsParent,
      Strict, KeysFollowOwner, Publishable, Ordered, Achieved, SparesOthers, AsksFor, NamesOf, MayDelete;
    AsksNothing(c.log, NamesOf(c.naming, c.actor, spec));
    if c.actor !in c.net.services {
      return Ignored;
    }
    var s := c.net.services[c.actor];
    if !s.wanted {
      if !s.finalizer {
        return Ignored;
      }
      var released := Release(c, k);
      return if released then Released else Unfinished;
    }
    ghost var n0, l0 := c.net, c.log;
    MakesNothing(l0);
    KeepsToPairSoFar(n0, n0, c.actor, spec, l0, l0);
    if (s.vipID != NO_ID && s.lbID == NO_ID) || spec.stack.None? || !spec.placed {
      return Rejected;
    }
    if !s.finalizer {
      var added := c.WriteService(AddFinalizer, s.(finalizer := true));
      OneCallAsksNothing(l0, c.log, AddFinalizer, NamesOf(c.naming, c.actor, spec));
      OneCallMakesNone(l0, c.log, AddFinalizer);
      if !added {
        KeepsToPairSoFar(n0, c.net, c.actor, spec, l0, c.log);
        return Unfinished;
      }
      InvIsWellFormed(c.naming, n0);
      InvIsWellFormed(c.naming, c.net);
      RewriteKeepsShape(c.net, c.log[|l0|].pre);
      SpanKeepsNames(c.actor, n0, l0, [], c.log[|l0|].pre, l0);
      FinalizerKeepsOrder(c.naming, n0, c.log[|l0|].pre, c.net, c.actor);
    }
    ghost var n1, l1 := c.net, c.log;
    v := Converge(c, k, spec);
    if l1 != l0 {
      AnnouncesAsBefore(c.naming, c.net, c.actor, n0.namespace, s, spec);
      KeepsToPairEarlier(c.naming, n0, l1[|l0|].pre, n1, c.net, c.actor, spec, l0, l1, c.log, v == Ensured);
    }
    AsksOn(l0, l1, c.log, NamesOf(c.naming, c.actor, spec));
  }

  /** The beginning of a pass: the state, and what EnsureStack is asked for. */
  method Begin(c: Client, ghost k: Kid.Kids, spec: Spec) returns (observed: Observed.State, req: Request)
    requires c.Valid() && ProperNames(c.naming) && c.actor in c.net.services
    requires c.net.services[c.actor].finalizer && c.net.services[c.actor].wanted && Acceptable(c.net.services[c.actor], spec)
    ensures fresh(observed) && observed.vsID == NO_ID
    ensures req == RequestOf(c.naming, c.net.namespace, c.actor, c.net.services[c.actor], spec)
    ensures Begins(c.naming, c.net, c.actor, req, observed.graph, observed.lbID, observed.vipID, NO_ID)
    ensures StartsFrom(c.net, c.actor, observed.lbID, observed.vipID)
    ensures var s := c.net.services[c.actor]; s.lbID != NO_ID ==>
              && observed.lbID == s.lbID && observed.graph == RecordOf(s) && observed.vipID == s.vipID && observed.vipAddress == s.vipAddress
    ensures InOrder(c.net, c.actor) && NamesApart(c.naming, c.actor, spec.stack.value.virtualServers) ==>
              Ordered(c.net, k, observed.Mirrored(), req, NO_ID)
  {
    hide StartsFrom, Inv, Run, Begins, RecordedListeners, InOrder, NamesApart, Convergence.NamesFit, Strict, KeysFollowOwner, Ordered, Reaches,
      ScalarCovered, ForService, ProperNames;
    var s := c.net.services[c.actor];
    observed := ReadState(c);
    var strictLB, strictVIP := StrictPolicies(c.net.namespace, s, c.actor, observed.graph);
    JoinersAreStrictAlike(c.net.namespace, s, c.actor, observed.graph);
    req := Request(ForService(c.naming, c.net.namespace, c.actor, s, spec.stack.value), strictLB, strictVIP, spec.networkIDExplicit,
                   spec.networkUsable, true, spec.reachable, spec.resolve, spec.sha);
    StateBegins(c.naming, c.net, c.actor, s, req, spec.stack.value, observed.graph, observed.graph, observed.lbID, observed.vipID);
    ApartNamesFit(c.naming, c.net.namespace, c.actor, s, spec.stack.value);
    if InOrder(c.net, c.actor) && NamesApart(c.naming, c.actor, spec.stack.value.virtualServers) {
      InOrderIsOrdered(c.naming, c.net, c.actor, k, observed.Mirrored(), req);
    }
  }

  /** There is nothing to be done for the Service, and a pass finds that out: the load balancer, the VIP and the listeners are as
      asked, and the record says so. */
  ghost predicate Rests(nm: Naming, n: Net, k: Kid.Kids, name: string, spec: Spec) {
    && name in n.services && spec.stack.Some? && n.services[name].wanted && n.services[name].finalizer && Acceptable(n.services[name], spec)
    && InOrder(n, name) && NamesApart(nm, name, spec.stack.value.virtualServers)
    && var s := n.services[name];
    && var req, g := RequestOf(nm, n.namespace, name, s, spec), AnnotatedGraph(s.(vsID := NO_ID));
    && AtRest(n, k, RecordOf(s), g, req, s.lbID, s.vipID, s.vipAddress, NO_ID) && Answerable(n, g, req, s.lbID, s.vipID, NO_ID)
  }

  lemma RestsSays(nm: Naming, n: Net, k: Kid.Kids, name: string, spec: Spec, observed: Observed.State, req: Request)
    requires WellFormed(n) && Rests(nm, n, k, name, spec) && observed.vsID == NO_ID
    requires req == RequestOf(nm, n.namespace, name, n.services[name], spec)
    requires var s := n.services[name]; s.lbID != NO_ID ==>
               && observed.lbID == s.lbID && observed.graph == RecordOf(s) && observed.vipID == s.vipID && observed.vipAddress == s.vipAddress
    ensures AtRest(n, k, observed.graph, observed.Mirrored(), req, observed.lbID, observed.vipID, observed.vipAddress, NO_ID)
    ensures Answerable(n, observed.Mirrored(), req, observed.lbID, observed.vipID, NO_ID)
    ensures InOrder(n, name) && NamesApart(nm, name, spec.stack.value.virtualServers)
  {
    hide Answerable, RequestOf, InOrder, NamesApart, LoopRests, OnlyTheStacks, RecordRests, Acceptable, VIPs.Healthy, VIPs.AddressNow;
    var s := n.services[name];
    RestingIsPlaced(n, req, s.lbID);
    NoEmptyLB(n);
    assert observed.Mirrored() == AnnotatedGraph(s.(vsID := NO_ID));
  }

  lemma NoEmptyLB(n: Net)
    requires WellFormed(n)
    ensures NO_ID !in n.lbs
  {
  }

  /** Nothing has happened but writes of annotations. */
  ghost predicate OnlyWrites(n0: Net, l0: seq<Event>, n: Net, l: seq<Event>) {
    && n == n0.(services := n.services) && |l0| <= |l| && l[..|l0|] == l0 && forall i | |l0| <= i < |l| :: l[i].call.Patch?
  }

  lemma PatchesOn(n0: Net, l0: seq<Event>, n1: Net, l1: seq<Event>, n: Net, l: seq<Event>)
    requires PatchedOnly(n0, l0, n1, l1) && OnlyWrites(n1, l1, n, l)
    ensures OnlyWrites(n0, l0, n, l)
  {
  }

  lemma PatchedIsWritten(n0: Net, l0: seq<Event>, n: Net, l: seq<Event>)
    requires PatchedOnly(n0, l0, n, l)
    ensures OnlyWrites(n0, l0, n, l)
  {
  }

  /** The part after the finalizer. */
  method Converge(c: Client, k: Kid.ChildClient, spec: Spec) returns (v: Verdict)
    requires c.Valid() && k.Valid() && ProperNames(c.naming) && spec.stack.Some?
    requires c.actor in c.net.services && var s := c.net.services[c.actor];
             s.finalizer && s.wanted && Acceptable(s, spec)
    modifies c, k
    ensures c.Valid() && k.Valid() && c.faults <= old(c.faults) && k.faults <= old(k.faults)
    ensures c.quiet && old(Rests(c.naming, c.net, k.kids, c.actor, spec)) ==>
              && OnlyWrites(old(c.net), old(c.log), c.net, c.log) && k.kids == old(k.kids) && k.calls == old(k.calls)
              && (old(c.faults) == 0 && old(k.faults) == 0 ==> v == Ensured)
    ensures v == Unfinished || (v == Ensured && Reconciled(c.naming, old(c.net), c.net, c.actor, spec, v))
    ensures KeepsToPair(old(c.net), c.net, c.actor, spec, old(c.log), c.log, v == Ensured)
    ensures AsksFor(old(c.log), c.log, NamesOf(c.naming, c.actor, spec))
  {
    hide KeepsToPair, StaysWith, StartsFrom, MakesNoLB, MakesNoVIP, StandsAsAsked, Inv, Run, Span, Begins, RecordedListeners, AllGone,
      Served, InOrder, Convergence.NamesFit, Kid.WellFormedKids, RecordsParent, Strict, KeysFollowOwner, Publishable, Ordered, Achieved,
      SparesOthers, KeepsVIP, Reaches, AsksFor, Recovery.Names, LeavesExactly, KeepsLB, ScalarCovered, Renamed, ProperNames, WellFormed,
      NamesLater, Reconciled, NamesApart, Acceptable, Rests, AtRest, Answerable, PatchedOnly, OnlyWrites, VIPStands, ParentsReturned,
      ScalarFollows, Announces;
    ghost var n0, k0 := c.net, k.kids;
    InvIsWellFormed(c.naming, n0);
    ghost var s := c.net.services[c.actor];
    var observed, req := Begin(c, k0, spec);
    ghost var rests := c.quiet && Rests(c.naming, n0, k0, c.actor, spec);
    if rests {
      RestsSays(c.naming, n0, k0, c.actor, spec, observed, req);
    }
    ghost var given := observed.Mirrored();
    ghost var hyp := InOrder(n0, c.actor) && NamesApart(c.naming, c.actor, spec.stack.value.virtualServers);
    var r;
    ghost var ids, lb, subnet;
    ghost var lbID, vipID := observed.lbID, observed.vipID;
    r, ids, lb, subnet := EnsureStack(c, k, observed, req);
    ghost var n1, l1 := c.net, c.log;
    if rests {
      PatchedIsWritten(n0, old(c.log), n1, l1);
    }
    if r.Err? {
      MakesNothing(l1);
      PassKeepsPair(n0, c.net, c.actor, spec, req, lbID, vipID, old(c.log), l1, l1, false, observed.lbID, observed.vipID, false);
      return Unfinished;
    }
    v := PublishResult(c, observed, req, spec, n0, s, k0, given, k.kids, hyp, ids, subnet);
    PassKeepsPair(n0, c.net, c.actor, spec, req, lbID, vipID, old(c.log), l1, c.log, true, observed.lbID, observed.vipID, v == Ensured);
    if rests {
      PatchesOn(n0, old(c.log), n1, l1, c.net, c.log);
    }
    AsksOn(old(c.log), l1, c.log, NamesOf(c.naming, c.actor, spec));
  }

  lemma JoinersAreStrictAlike(namespace: string, s: Service, name: string, g: Graph)
    requires s.lbID != NO_ID ==> g.lbServices == RecordedParents(s) && g.vips == VIPEntries(s)
    requires s.vipID != NO_ID ==> s.lbID != NO_ID
    ensures Strict(namespace, s, name, s.lbMode, s.lbID, g.lbServices) == StrictLB(namespace, s, name)
    ensures Strict(namespace, s, name, s.vipMode, s.vipID, g.vips) == StrictVIP(namespace, s, name)
  {
    hide OwnsEntry;
  }

  /** What EnsureStack has returned: the parents are on record and stand. */
  predicate Returned(n: Net, given: Graph, req: Request, g: Graph, lb: Id, vip: Id, address: string, vsID: Id, subnet: string) {
    && StandsAsAsked(n, req, lb, subnet) && VIPStands(n, lb, subnet, vip, address) && vip != NO_ID
    && ParentsReturned(given, g, req.stack, lb, vip, address) && ScalarFollows(req.stack, NO_ID, g, vsID)
  }

  /** What follows a successful pass. `n0`, `k0` and `given` are the provider and the graph before it. */
  method PublishResult(c: Client, observed: Observed.State, req: Request, spec: Spec, ghost n0: Net, ghost s: Service, ghost k0: Kid.Kids,
                       ghost given: Graph, ghost k1: Kid.Kids, ghost hyp: bool, ghost ids: seq<Id>, ghost subnet: string)
    returns (v: Verdict)
    requires c.Valid() && c.actor in n0.services && s == n0.services[c.actor] && s.finalizer && NamesLater(n0, c.net) && spec.stack.Some?
    requires ProperNames(c.naming)
    requires Publishable(c.naming, c.net, c.actor, s, req, observed.graph, observed.lbID, observed.vipID, observed.vsID)
    requires KeepsVIP(c.net, c.actor, observed.lbID, observed.vipID, FrontOf(req, subnet))
    requires observed.vsID == NO_ID || observed.vsID in Observed.Ids(observed.graph.virtualServers)
    requires req == RequestOf(c.naming, n0.namespace, c.actor, s, spec)
    requires hyp == (InOrder(n0, c.actor) && NamesApart(c.naming, c.actor, spec.stack.value.virtualServers))
    requires Returned(c.net, given, req, observed.graph, observed.lbID, observed.vipID, observed.vipAddress, observed.vsID, subnet)
    requires n0.services[c.actor].wanted && Acceptable(s, spec)
    requires hyp ==> Achieved(c.net, k0, given, k1, observed.graph, observed.lbID, observed.vipID, req, observed.vsID, ids)
    modifies c
    ensures c.Valid() && c.faults <= old(c.faults)
    ensures v == Unfinished || (v == Ensured && Reconciled(c.naming, n0, c.net, c.actor, spec, v))
    ensures MakesNoLB(old(c.log), c.log) && MakesNoVIP(old(c.log), c.log)
    ensures c.quiet ==> OnlyWrites(old(c.net), old(c.log), c.net, c.log) && (old(c.faults) == 0 ==> v == Ensured)
    ensures v == Ensured ==>
              c.actor in c.net.services
              && c.net.services[c.actor].lbID == observed.lbID && c.net.services[c.actor].vipID == observed.vipID
    ensures AsksFor(old(c.log), c.log, NamesOf(c.naming, c.actor, spec))
  {
    hide MakesNoLB, MakesNoVIP, Inv, Run, Span, RecordedListeners, AllGone, Served, InOrder, Convergence.NamesFit, RecordsParent,
      KeysFollowOwner, Publishable, Achieved, KeepsVIP, AsksFor, Recovery.Names, LeavesExactly, KeepsLB, Renamed, WellFormed, NamesLater,
      Returned, Announces, StrictLB, StrictVIP, StandsAsAsked, VIPStands, ParentsReturned, ScalarFollows, IsScalar;
    ghost var n1, l1 := c.net, c.log;
    InvIsWellFormed(c.naming, n1);
    LaterNamespace(n0, n1);
    PublishableSays(c.naming, n1, c.actor, s, req, observed.graph, observed.lbID, observed.vipID, observed.vsID);
    var ok := Publish(c, observed, req, s, FrontOf(req, subnet));
    if !ok {
      return Unfinished;
    }
    ghost var mid: Net, scalar: Id :|
      Publishes(c.naming, c.actor, n1, l1, mid, c.net, req, observed.graph, observed.lbID, observed.vipID, observed.vipAddress, observed.vsID, scalar);
    PublishedAnchors(c.naming, n1, mid, c.net, c.actor, s, req, observed.graph, observed.lbID, observed.vipID, observed.vipAddress,
                     observed.vsID, scalar, l1);
    ReturnedSays(n1, given, req, observed.graph, observed.lbID, observed.vipID, observed.vipAddress, observed.vsID, subnet);
    PublishedIsPlaced(n1, c.net, c.actor, req, subnet, spec.stack.value.lbService);
    PublishedAnnounces(c.naming, n0.namespace, c.actor, s, spec, req, given, n1, c.net, mid.services[c.actor], observed.graph, observed.lbID,
                       observed.vipID, observed.vipAddress, observed.vsID, scalar, subnet);
    if hyp {
      PublishedServes(c.actor, n1, l1, mid, c.net, k0, given, k1, mid.services[c.actor], req, observed.graph, observed.lbID, observed.vipID,
                      observed.vipAddress, observed.vsID, scalar, ids, c.naming, spec.stack.value, s);
    }
    return Ensured;
  }

  lemma ReturnedSays(n: Net, given: Graph, req: Request, g: Graph, lb: Id, vip: Id, address: string, vsID: Id, subnet: string)
    requires Returned(n, given, req, g, lb, vip, address, vsID, subnet)
    ensures StandsAsAsked(n, req, lb, subnet) && VIPStands(n, lb, subnet, vip, address) && vip != NO_ID
    ensures ParentsReturned(given, g, req.stack, lb, vip, address) && ScalarFollows(req.stack, NO_ID, g, vsID)
  {
    hide StandsAsAsked, VIPStands, ParentsReturned, ScalarFollows;
  }

  lemma FinalizerKeepsOrder(nm: Naming, n: Net, mid: Net, m: Net, name: string)
    requires Inv(nm, n) && Inv(nm, m) && NamesLater(n, mid) && m == mid.(services := m.services) && name in n.services && name in m.services
    requires m.services[name] == n.services[name].(finalizer := true)
    ensures InOrder(n, name) ==> InOrder(m, name)
  {
    hide Unique, MadeOnRecord, OwnParentIs, KeysFollowOwner, OwnName, ScalarCovered, NamesLater;
    if InOrder(n, name) {
      var g := if n.services[name].graph.Some? then n.services[name].graph.value else EMPTY_GRAPH;
      var none := Stack(LBService("", "", "", "", "", NO_OWNER), VIP("", NO_OWNER), [], [], [], [], []);
      InOrderIsOrderly(nm, n, name, g, none);
      WriteKeepsNames(n, mid, m);
      NoEmptyListener(m);
      OrderlyLater(n, m, g, g, none, NO_ID);
    }
  }

  lemma InOrderIsOrdered(nm: Naming, n: Net, name: string, k: Kid.Kids, given: Graph, req: Request)
    requires Inv(nm, n) && InOrder(n, name) && Convergence.NamesFit(req.stack.virtualServers) && req.aggregate
    requires given.virtualServers == map[]
             || (n.services[name].graph.Some? && given.virtualServers == n.services[name].graph.value.virtualServers)
    ensures Ordered(n, k, given, req, NO_ID)
  {
    hide Orderly, Convergence.NamesFit;
    InOrderIsOrderly(nm, n, name, given, req.stack);
  }

  lemma LaterNamespace(n: Net, m: Net)
    requires NamesLater(n, m)
    ensures m.namespace == n.namespace
  {
  }

  lemma PublishedIsPlaced(n1: Net, n: Net, name: string, req: Request, subnet: string, asked: LBService)
    requires name in n.services && NamesLater(n1, n)
    requires StandsAsAsked(n1, req, n.services[name].lbID, subnet)
    requires req.stack.lbService.vpcID == asked.vpcID && req.stack.lbService.region == asked.region
    ensures PlacedFor(n, name, asked)
  {
    hide NamesLater, LBServices.Placed;
    PlacesStay(n1, n, req, n.services[name].lbID, subnet);
    PlacedAnywhere(n, n.services[name].lbID, subnet, asked);
  }

  lemma PlacedAnywhere(n: Net, lb: Id, subnet: string, asked: LBService)
    ensures lb in n.lbs && LBServices.Placed(n.lbs[lb], Placement(subnet, asked.vpcID, asked.region)) ==>
              LBServices.Placed(n.lbs[lb], Placement("", asked.vpcID, asked.region))
  {
  }

  lemma PublishedAnchors(nm: Naming, n1: Net, mid: Net, n: Net, name: string, s: Service, req: Request, g: Graph, lb: Id, vip: Id,
                         address: string, vsID: Id, scalar: Id, l1: seq<Event>)
    requires Publishable(nm, n1, name, s, req, g, lb, vip, vsID) && Span(name, n1, l1, [], mid, l1)
    requires name in mid.services && n == mid.(services := mid.services[name := Published(mid.services[name], req, g, lb, vip, address, scalar)])
    ensures RecordsParent(n, name, n.services[name].lbID) && n.namespace == n1.namespace
    ensures n.services[name].finalizer && n.services[name].uid == s.uid && n.services[name].group == s.group
    ensures mid.services[name] == s.(lbID := lb, lbMode := ModeOf(s.lbMode, req.strictLB, lb), graph := mid.services[name].graph) && lb != NO_ID
  {
    hide Span, Vouched, Anchored;
    SpanKeepsServices(name, n1, l1, [], mid, l1);
    AnchoredSays(nm, n1, name, lb);
    ParentsAreBuckets(nm, n1, name, g, lb);
  }
}
