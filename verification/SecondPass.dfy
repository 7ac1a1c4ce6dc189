/** EnsureStack again, over the state that a successful pass has returned and published, with a provider that has settled:
    nothing is left to be done. */
module SecondPass {
  import opened Common
  import opened Model
  import opened Cluster
  import opened Protocol
  import opened Safety
  import opened Progress
  import opened Provider
  import opened Deployer
  import opened StackDeployer
  import opened StackPass
  import opened GraphKeys
  import Bridge
  import Convergence
  import DesiredHash
  import Kid = Children
  import LC = ListenerChildren
  import Observed
  import Recovery
  import Rules
  import Obsolete
  import VIPs
  import VirtualServers

  /** Load balancer, VIP and listeners have become ready. */
  ghost predicate Settled(n: Net, req: Request, lb: Id, vip: Id, address: string, ids: seq<Id>) {
    && ParentsRest(n, req, lb, vip, address)
    && forall j | 0 <= j < |ids| && j < |req.stack.virtualServers| ::
         && ids[j] in n.listeners && n.listeners[ids[j]].readable
         && VirtualServers.OnFrontend(n.listeners[ids[j]], vip, req.stack.virtualServers[j]) && VirtualServers.IsUp(n.listeners[ids[j]].status)
  }

  lemma DoneRests(before: Rules.View, owned: set<Id>, k: Kid.Kids, g: Graph, id: Id, vs: VirtualServer, req: Request)
    requires LC.ListenerDone(before, owned, k, g, id, vs, req.stack, req.resolve) && Rules.DistinctOwned(before, owned, false)
    requires forall desired | LC.DesiredFor(req.stack.routingRules, g, vs.name, desired) :: Rules.DistinctSpecs(desired)
    ensures LC.ListenerRests(k, g, id, vs, req.stack, req.resolve)
  {
    hide LC.PoolsDone, LC.DesiredFor, Rules.DistinctSpecs, Rules.DistinctOwned, LC.RulesDone, LC.AllServed, LC.PoolsFor;
    var desired :| LC.DesiredFor(req.stack.routingRules, g, vs.name, desired)
      && (Rules.DistinctSpecs(desired) && Rules.DistinctOwned(before, owned, false) ==> LC.RulesDone(before, owned, k, g, id, vs, desired));
  }

  /** The mirrored state of the next pass names the same ids. */
  lemma SameIDsMirrored(g: Graph, h: Graph, stack: Stack, vsID: Id, r: Resource, vs: VirtualServer)
    requires h.virtualServers == Observed.Mirror(g.virtualServers, Observed.LEGACY_VS, vsID, r) && vs.name != Observed.LEGACY_VS
    requires vs.name in g.virtualServers && g.virtualServers[vs.name].externalID != NO_ID
    ensures vs.name in h.virtualServers && h.virtualServers[vs.name] == g.virtualServers[vs.name]
    ensures CurrentID(h, stack, vs, vsID) == g.virtualServers[vs.name].externalID
  {
  }

  lemma MirrorIsOrderly(n: Net, g: Graph, h: Graph, stack: Stack, vsID: Id, r: Resource)
    requires Orderly(n, g, stack, vsID) && r.externalID == vsID && (vsID == NO_ID || vsID in Observed.Ids(g.virtualServers))
    requires h.virtualServers == Observed.Mirror(g.virtualServers, Observed.LEGACY_VS, vsID, r)
    ensures Orderly(n, h, stack, vsID)
  {
  }

  lemma MirrorNear(n: Net, g: Graph, h: Graph, stack: Stack, vsID: Id, r: Resource)
    requires r.externalID == vsID && h.virtualServers == Observed.Mirror(g.virtualServers, Observed.LEGACY_VS, vsID, r)
    ensures Near(n, h, stack, vsID) == Near(n, g, stack, vsID)
  {
    hide Recovery.Names;
    Observed.MirrorKeepsEntries(g.virtualServers, Observed.LEGACY_VS, vsID, r);
  }

  lemma MirrorOnlyTheStacks(g: Graph, h: Graph, req: Request, vsID: Id, r: Resource)
    requires ExactKeys(g, req) && Keyed(g.virtualServers) && (vsID == NO_ID || vsID in Observed.Ids(g.virtualServers)) && r.externalID == vsID
    requires h.virtualServers == Observed.Mirror(g.virtualServers, Observed.LEGACY_VS, vsID, r) && h.pools == g.pools
    requires Observed.LEGACY_VS !in Recovery.Names(req.stack.virtualServers)
    ensures OnlyTheStacks(h, req)
  {
    hide Recovery.Names;
    if Observed.LEGACY_VS in h.virtualServers && Observed.LEGACY_VS !in g.virtualServers {
      var key :| key in g.virtualServers && g.virtualServers[key].externalID == vsID;
      assert key in h.virtualServers && h.virtualServers[key].externalID == vsID;
    }
  }

  lemma DigestsAreNotEmpty(req: Request, vs: VirtualServer)
    requires forall s :: req.sha(s) != ""
    ensures HashOf(req, vs) != ""
  {
    hide StackBackends;
  }

  lemma ListenerIsAtRest(n: Net, g: Graph, h: Graph, lb: Id, vip: Id, req: Request, vsID: Id, r: Resource, ids: seq<Id>, j: nat)
    requires WellFormed(n) && j < |ids| == |req.stack.virtualServers| && Standing(n, g, lb, vip, req.stack, ids) && Hashed(g, req, |ids|)
    requires h.virtualServers == Observed.Mirror(g.virtualServers, Observed.LEGACY_VS, vsID, r)
    requires ids[j] in n.listeners && n.listeners[ids[j]].readable && req.stack.virtualServers[j].name != Observed.LEGACY_VS
    requires VirtualServers.OnFrontend(n.listeners[ids[j]], vip, req.stack.virtualServers[j]) && VirtualServers.IsUp(n.listeners[ids[j]].status)
    requires forall s :: req.sha(s) != ""
    ensures var vs := req.stack.virtualServers[j];
            && CurrentID(h, req.stack, vs, vsID) == ids[j] && VirtualServers.Rests(n, RequestFor(req, h, lb, vip, vs, vsID, false))
            && vs.name in h.virtualServers && h.virtualServers[vs.name] == ListenerEntry(req, vs, ids[j], vs.name)
  {
    hide HashOf, VirtualServers.IsUp, VirtualServers.OnFrontend, CurrentID;
    var vs := req.stack.virtualServers[j];
    assert Stands(n, lb, vip, vs, ids[j]);
    assert EntryIs(g, req, vs);
    SameIDsMirrored(g, h, req.stack, vsID, r, vs);
    DigestsAreNotEmpty(req, vs);
  }

  /** The returned record names its parents as they are, and no alias is left. */
  lemma ReturnedRests(given: Graph, g: Graph, req: Request, lb: Id, vip: Id, address: string, vsID: Id)
    requires ParentsReturned(given, g, req.stack, lb, vip, address) && ExactKeys(g, req)
    requires Observed.LEGACY_VS !in Recovery.Names(req.stack.virtualServers)
    requires req.stack.lbService.name != Observed.LEGACY_LB && req.stack.vip.name != Observed.LEGACY_VIP
    requires vsID == NO_ID || vsID in Observed.Ids(g.virtualServers)
    ensures RecordRests(g, req.stack, lb, vip, address, vsID)
  {
    hide Recovery.Names;
    DropsOnce(given.lbServices[req.stack.lbService.name := ParentEntry(req.stack, lb)], Observed.LEGACY_LB);
    DropsOnce(given.vips[req.stack.vip.name := VIPEntry(req.stack, vip, address)], Observed.LEGACY_VIP);
  }

  lemma DropsOnce(b: Bucket, legacy: string)
    ensures Observed.Drop(Observed.Drop(b, legacy), legacy) == Observed.Drop(b, legacy)
    ensures forall key | key in b && key != legacy :: key in Observed.Drop(b, legacy) && Observed.Drop(b, legacy)[key] == b[key]
  {
  }

  /** What a first pass has achieved is in order for a second one. */
  lemma FinishedIsOrdered(n: Net, k0: Kid.Kids, given: Graph, k: Kid.Kids, observed: Observed.State, req: Request, ids: seq<Id>)
    requires Finished(n, k0, given, k, observed.graph, observed.lbID, observed.vipID, req, observed.vsID, ids)
    requires observed.vsID == NO_ID || observed.vsID in Observed.Ids(observed.graph.virtualServers)
    ensures Ordered(n, k, observed.Mirrored(), req, observed.vsID)
  {
    hide Standing, Hashed, Orderly, AllDone, Convergence.KidsDistinct, LC.PoolIDsApart, Fit, Near;
    var g, h := observed.graph, observed.Mirrored();
    MirrorIsOrderly(n, g, h, req.stack, observed.vsID, Resource(Observed.LEGACY_VS, observed.vsID, observed.vsName, "", "", NO_OWNER));
    if !req.aggregate {
      FewerPoolsApart(g, h, k.issued);
      MirrorNear(n, g, h, req.stack, observed.vsID, Resource(Observed.LEGACY_VS, observed.vsID, observed.vsName, "", "", NO_OWNER));
    }
  }

  /** What a first pass has achieved is a state at rest, as soon as the provider has settled. */
  lemma FirstPassRests(n: Net, k0: Kid.Kids, given: Graph, k: Kid.Kids, observed: Observed.State, req: Request, ids: seq<Id>)
    requires WellFormed(n) && forall s :: req.sha(s) != ""
    requires Finished(n, k0, given, k, observed.graph, observed.lbID, observed.vipID, req, observed.vsID, ids)
    requires ExactKeys(observed.graph, req) && Keyed(observed.graph.virtualServers)
    requires RecordRests(observed.graph, req.stack, observed.lbID, observed.vipID, observed.vipAddress, observed.vsID)
    requires |req.stack.virtualServers| == 1 ==> observed.vsID == GraphKeys.IDAt(observed.graph.virtualServers, req.stack.virtualServers[0].name)
    requires Settled(n, req, observed.lbID, observed.vipID, observed.vipAddress, ids)
    requires !req.aggregate ==> DistinctRoutes(k0, given, observed.graph, req, ids)
    ensures AtRest(n, k, observed.graph, observed.Mirrored(), req, observed.lbID, observed.vipID, observed.vipAddress, observed.vsID)
  {
    hide ParentsRest, WellFormed, Standing, Hashed, Orderly, LC.ListenerDone, LC.ListenerRests, ExactKeys, RecordRests, ListenerEntry,
      VirtualServers.Rests, CurrentID, VirtualServers.IsUp, VirtualServers.OnFrontend, HashOf, OnlyTheStacks, Convergence.KidsDistinct,
      LC.PoolIDsApart, LC.Workable, Rules.DistinctSpecs, Rules.DistinctOwned, Rules.ViewOf, LC.OwnedRules, LC.DesiredFor;
    var g, h := observed.graph, observed.Mirrored();
    var r := Resource(Observed.LEGACY_VS, observed.vsID, observed.vsName, "", "", NO_OWNER);
    assert Observed.LEGACY_VS[6] == '/';
    RestingScalar(g, req.stack, observed.lbID, observed.vipID, observed.vipAddress, observed.vsID);
    MirrorOnlyTheStacks(g, h, req, observed.vsID, r);
    forall j | 0 <= j < |req.stack.virtualServers|
      ensures ListenerAtRest(n, k, h, observed.lbID, observed.vipID, req, observed.vsID, req.stack.virtualServers[j])
    {
      var vs := req.stack.virtualServers[j];
      ListenerIsAtRest(n, g, h, observed.lbID, observed.vipID, req, observed.vsID, r, ids, j);
      if !req.aggregate {
        DoneRests(Rules.ViewOf(k0, ids[j]), LC.OwnedRules(given.routingRules, vs.name), k, g, ids[j], vs, req);
        SameChildrenRest(k, g, h, ids[j], vs, req.stack, req.resolve);
      }
    }
  }

  lemma RestingScalar(g: Graph, stack: Stack, lb: Id, vip: Id, address: string, vsID: Id)
    requires RecordRests(g, stack, lb, vip, address, vsID)
    ensures vsID == NO_ID || vsID in Observed.Ids(g.virtualServers)
  {
  }

  lemma AchievedIsClosed(n: Net, k0: Kid.Kids, given: Graph, k: Kid.Kids, g: Graph, lb: Id, vip: Id, req: Request, vsID: Id, ids: seq<Id>)
    requires Achieved(n, k0, given, k, g, lb, vip, req, vsID, ids) && Closed(given)
    ensures ExactKeys(g, req) && Keyed(g.virtualServers) && Observed.LEGACY_VS !in Recovery.Names(req.stack.virtualServers)
    ensures Finished(n, k0, given, k, g, lb, vip, req, vsID, ids)
  {
    hide Standing, Hashed, Orderly, AllDone, ListenersSettled, PoolsSettled, ExactKeys, LC.Workable, VSName, PoolKey;
    assert Observed.LEGACY_VS[6] == '/';
  }

  /** Publishing and waiting undo nothing. */
  lemma FinishedLater(actor: string, n0: Net, l0: seq<Event>, mid: Net, now: Net, later: Net, k0: Kid.Kids, given: Graph, k: Kid.Kids, g: Graph,
                      lb: Id, vip: Id, req: Request, vsID: Id, ids: seq<Id>)
    requires WellFormed(n0) && WellFormed(mid) && WellFormed(later) && Span(actor, n0, l0, [], mid, l0)
    requires now == mid.(services := now.services) && Evolves(now, later)
    requires Finished(n0, k0, given, k, g, lb, vip, req, vsID, ids)
    ensures Finished(later, k0, given, k, g, lb, vip, req, vsID, ids)
  {
    hide Span, WellFormed, Evolves, Orderly, Standing, AllDone, Hashed, Fit, Convergence.KidsDistinct, LC.PoolIDsApart, NamesLater, Near;
    FinishedStays(actor, n0, l0, mid, k0, given, k, g, lb, vip, req, vsID, ids);
    FinishedElsewhere(mid, now, k0, given, k, g, lb, vip, req, vsID, ids);
    ElsewhereIsWellFormed(mid, now);
    EvolvingSpans(actor, now, later);
    FinishedStays(actor, now, [], later, k0, given, k, g, lb, vip, req, vsID, ids);
  }

  lemma FinishedStays(actor: string, n0: Net, l0: seq<Event>, n: Net, k0: Kid.Kids, given: Graph, k: Kid.Kids, g: Graph, lb: Id, vip: Id,
                      req: Request, vsID: Id, ids: seq<Id>)
    requires WellFormed(n0) && WellFormed(n) && Span(actor, n0, l0, [], n, l0)
    requires Finished(n0, k0, given, k, g, lb, vip, req, vsID, ids)
    ensures Finished(n, k0, given, k, g, lb, vip, req, vsID, ids)
  {
    hide Span, WellFormed, Orderly, Standing, AllDone, Hashed, Fit, Convergence.KidsDistinct, LC.PoolIDsApart, NamesLater, DeletedBy, Near;
    NoneDoomed();
    StandingStays(actor, n0, l0, [], n, l0, g, lb, vip, req.stack, ids);
    SpanKeepsNames(actor, n0, l0, [], n, l0);
    NoEmptyListener(n);
    OrderlyLater(n0, n, g, g, req.stack, vsID);
    if !req.aggregate {
      NearLater(n0, n, g, g, req.stack, vsID);
      FewerDistinct(k, Near(n0, g, req.stack, vsID), Near(n, g, req.stack, vsID));
    }
  }

  lemma FinishedElsewhere(n: Net, m: Net, k0: Kid.Kids, given: Graph, k: Kid.Kids, g: Graph, lb: Id, vip: Id, req: Request, vsID: Id, ids: seq<Id>)
    requires m == n.(services := m.services) && Finished(n, k0, given, k, g, lb, vip, req, vsID, ids)
    ensures Finished(m, k0, given, k, g, lb, vip, req, vsID, ids)
  {
    hide AllDone, Hashed, Fit, Convergence.KidsDistinct, LC.PoolIDsApart, VirtualServers.OnFrontend;
    assert Near(m, g, req.stack, vsID) == Near(n, g, req.stack, vsID);
  }

  lemma ElsewhereIsWellFormed(n: Net, m: Net)
    requires m == n.(services := m.services) && WellFormed(n)
    ensures WellFormed(m)
  {
  }

  lemma EvolvingSpans(actor: string, n: Net, later: Net)
    requires WellFormed(n) && Evolves(n, later)
    ensures Span(actor, n, [], [], later, [])
  {
    hide Evolves, WellFormed, Later, AddsOnly, Span;
    EvolvesIsLater(n, later);
    EvolvesAddsNothing(n, later);
    SpanReads(actor, n, [], later);
  }

  // ----- The second pass begins -----

  lemma ModesStrict(req: Request, s: Service, t: Service, lb: Id, vip: Id)
    requires t.lbMode == ModeOf(ModeOf(s.lbMode, req.strictLB, lb), req.strictLB, lb) && t.vipMode == ModeOf(s.vipMode, req.strictVIP, vip)
    ensures t.lbMode == PROVIDED ==> s.lbMode == PROVIDED || req.strictLB
    ensures t.vipMode == PROVIDED ==> s.vipMode == PROVIDED || req.strictVIP
  {
  }

  lemma StrictAgain(nm: Naming, n: Net, m: Net, actor: string, req: Request, s: Service, t: Service, g: Graph, lb: Id, vip: Id)
    requires actor in n.services && n.services[actor].uid == t.uid && OwnParents(nm, n, actor, g.lbServices, lb) && m.namespace == n.namespace
    requires t.graph == Some(g) && t.lbMode == ModeOf(ModeOf(s.lbMode, req.strictLB, lb), req.strictLB, lb)
    requires t.vipMode == ModeOf(s.vipMode, req.strictVIP, vip)
    requires StrictLB(n.namespace, s, actor) ==> req.strictLB
    ensures StrictLB(m.namespace, t, actor) ==> req.strictLB
  {
    hide OwnedBy, KeysFollowOwner, OwnParentIs;
    ModesStrict(req, s, t, lb, vip);
    ParentsAreBuckets(nm, n, actor, g, lb);
    assert OwnsEntry(n.namespace, g.lbServices, actor, t.uid);
  }

  /** From what a successful pass has published, the same pass may begin again. */
  lemma BeginsAgain(nm: Naming, n0: Net, n: Net, m: Net, actor: string, req: Request, graph0: Graph, lbID0: Id, vipID0: Id, vsID0: Id,
                    g: Graph, lb: Id, vip: Id, address: string, vsID: Id, scalar: Id)
    requires Begins(nm, n0, actor, req, graph0, lbID0, vipID0, vsID0) && NamesLater(n0, n)
    requires Publishable(nm, n, actor, n0.services[actor], req, g, lb, vip, vsID) && vip != NO_ID
    requires OwnsEntry(n.namespace, g.vips, actor, n0.services[actor].uid)
    requires m.services == n.services[actor := Bridge.Published(n.services[actor], req, g, lb, vip, address, scalar)] && m.namespace == n.namespace
    requires if vsID != NO_ID then scalar == vsID else scalar == NO_ID || scalar in Observed.Ids(g.virtualServers)
    requires vsID == NO_ID || vsID in Observed.Ids(g.virtualServers)
    ensures Begins(nm, m, actor, req, g, lb, vip, vsID)
  {
    hide OwnName, OwnedBy, KeysFollowOwner, OwnParents, Vouched, StrictLB, StrictVIP, Anchored, ModeOf, OwnsEntry;
    var s, t := n0.services[actor], m.services[actor];
    AnchoredSays(nm, n, actor, lb);
    SameNamespaceParents(nm, n, m, actor, g, lb);
    ParentsAreBuckets(nm, m, actor, g, lb);
    StrictAgain(nm, n, m, actor, req, s, t, g, lb, vip);
    ModesStrict(req, s, t, lb, vip);
    VIPStrictAgain(m.namespace, actor, req, s, t, g, lb, vip);
  }

  lemma VIPStrictAgain(namespace: string, actor: string, req: Request, s: Service, t: Service, g: Graph, lb: Id, vip: Id)
    requires t.graph == Some(g) && t.uid == s.uid && OwnsEntry(namespace, g.vips, actor, s.uid)
    requires t.vipMode == PROVIDED ==> s.vipMode == PROVIDED || req.strictVIP
    requires StrictVIP(namespace, s, actor) ==> req.strictVIP
    ensures StrictVIP(namespace, t, actor) ==> req.strictVIP
  {
    hide OwnsEntry;
    if t.vipMode == PROVIDED && s.vipMode == PROVIDED {
      ProvidedVIPIsStrictly(namespace, s, actor);
    }
  }

  // ----- Two passes -----

  /** What a pass returns in its observed state. */
  datatype Snapshot = Snapshot(graph: Graph, lbID: Id, vipID: Id, vipAddress: string, vsID: Id)

  function Shot(o: Observed.State): Snapshot
    reads o
  {
    Snapshot(o.graph, o.lbID, o.vipID, o.vipAddress, o.vsID)
  }

  /** The second pass may begin, and what the first has achieved still stands. `n` is the provider at the end of the first pass,
      `now` after its result was published, and `later` when the second pass begins. */
  lemma SecondBegins(nm: Naming, n0: Net, n: Net, l: seq<Event>, now: Net, later: Net, actor: string, req: Request, graph0: Graph,
                     lbID0: Id, vipID0: Id, vsID0: Id, k0: Kid.Kids, given: Graph, k: Kid.Kids, observed: Observed.State, ids: seq<Id>)
    requires Inv(nm, n) && Inv(nm, now) && Inv(nm, later)
    requires Begins(nm, n0, actor, req, graph0, lbID0, vipID0, vsID0) && NamesLater(n0, n)
    requires ParentsReturned(given, observed.graph, req.stack, observed.lbID, observed.vipID, observed.vipAddress)
    requires req.stack.vip.name != Observed.LEGACY_VIP
    requires Publishable(nm, n, actor, n0.services[actor], req, observed.graph, observed.lbID, observed.vipID, observed.vsID)
    requires observed.vipID != NO_ID && (observed.vsID == NO_ID || observed.vsID in Observed.Ids(observed.graph.virtualServers))
    requires exists mid, scalar :: Bridge.Publishes(nm, actor, n, l, mid, now, req, observed.graph, observed.lbID, observed.vipID, observed.vipAddress,
                                                    observed.vsID, scalar)
    requires Evolves(now, later)
    requires Achieved(n, k0, given, k, observed.graph, observed.lbID, observed.vipID, req, observed.vsID, ids) && Closed(given)
    ensures Begins(nm, later, actor, req, observed.graph, observed.lbID, observed.vipID, observed.vsID)
    ensures Finished(later, k0, given, k, observed.graph, observed.lbID, observed.vipID, req, observed.vsID, ids)
    ensures Ordered(later, k, observed.Mirrored(), req, observed.vsID)
  {
    hide Inv, Span, WellFormed, Evolves, NamesLater, Begins, Publishable, Achieved, Finished, Ordered, Closed, ParentsReturned;
    var mid, scalar :| Bridge.Publishes(nm, actor, n, l, mid, now, req, observed.graph, observed.lbID, observed.vipID, observed.vipAddress,
                                        observed.vsID, scalar);
    InvIsWellFormed(nm, n);
    InvIsWellFormed(nm, now);
    InvIsWellFormed(nm, later);
    SpanKeepsServices(actor, n, l, [], mid, l);
    EvolvesKeepsServices(now, later);
    SameNamespace(n0, n);
    ReturnsOwnVIP(nm, n0, actor, req, graph0, lbID0, vipID0, vsID0, given, observed.graph, observed.lbID, observed.vipID, observed.vipAddress);
    BeginsAgain(nm, n0, n, later, actor, req, graph0, lbID0, vipID0, vsID0, observed.graph, observed.lbID, observed.vipID, observed.vipAddress,
                observed.vsID, scalar);
    AchievedIsClosed(n, k0, given, k, observed.graph, observed.lbID, observed.vipID, req, observed.vsID, ids);
    FinishedLater(actor, n, l, mid, now, later, k0, given, k, observed.graph, observed.lbID, observed.vipID, req, observed.vsID, ids);
    FinishedIsOrdered(later, k0, given, k, observed, req, ids);
  }

  /** The returned record has the VIP as the Service's own. */
  lemma ReturnsOwnVIP(nm: Naming, n: Net, actor: string, req: Request, graph: Graph, lbID: Id, vipID: Id, vsID: Id, given: Graph, g: Graph,
                      lb: Id, vip: Id, address: string)
    requires Begins(nm, n, actor, req, graph, lbID, vipID, vsID) && ParentsReturned(given, g, req.stack, lb, vip, address)
    requires req.stack.vip.name != Observed.LEGACY_VIP
    ensures OwnsEntry(n.namespace, g.vips, actor, n.services[actor].uid)
  {
    hide OwnName, RecordedListeners, KeysFollowOwner, StrictLB, StrictVIP, Reaches;
    DropsOnce(given.vips[req.stack.vip.name := VIPEntry(req.stack, vip, address)], Observed.LEGACY_VIP);
    assert g.vips[req.stack.vip.name] == VIPEntry(req.stack, vip, address);
    assert OwnedBy(n.namespace, g.vips[req.stack.vip.name], actor, n.services[actor].uid);
  }

  /** With a provider that has settled, the second pass starts at rest. */
  lemma SecondRests(n: Net, later: Net, k0: Kid.Kids, given: Graph, k: Kid.Kids, observed: Observed.State, req: Request, vsID0: Id, ids: seq<Id>)
    requires WellFormed(later) && (forall s :: req.sha(s) != "") && Closed(given)
    requires Achieved(n, k0, given, k, observed.graph, observed.lbID, observed.vipID, req, observed.vsID, ids)
    requires Finished(later, k0, given, k, observed.graph, observed.lbID, observed.vipID, req, observed.vsID, ids)
    requires ParentsReturned(given, observed.graph, req.stack, observed.lbID, observed.vipID, observed.vipAddress)
    requires req.stack.lbService.name != Observed.LEGACY_LB && req.stack.vip.name != Observed.LEGACY_VIP
    requires observed.vsID == NO_ID || observed.vsID in Observed.Ids(observed.graph.virtualServers)
    requires ScalarFollows(req.stack, vsID0, observed.graph, observed.vsID)
    requires Settled(later, req, observed.lbID, observed.vipID, observed.vipAddress, ids)
    requires !req.aggregate ==> DistinctRoutes(k0, given, observed.graph, req, ids)
    ensures AtRest(later, k, observed.graph, observed.Mirrored(), req, observed.lbID, observed.vipID, observed.vipAddress, observed.vsID)
  {
    hide WellFormed, Achieved, Finished, ParentsReturned, Settled, DistinctRoutes, Closed, RecordRests, AtRest, ExactKeys;
    AchievedIsClosed(n, k0, given, k, observed.graph, observed.lbID, observed.vipID, req, observed.vsID, ids);
    ReturnedRests(given, observed.graph, req, observed.lbID, observed.vipID, observed.vipAddress, observed.vsID);
    FirstPassRests(later, k0, given, k, observed, req, ids);
  }

  /** One pass, whose result is published, after which time passes: the same pass may begin again, in order, and at rest where
      the provider has settled. */
  method EnsureAndWait(c: Client, k: Kid.ChildClient, observed: Observed.State, req: Request)
    returns (first: Result<bool, Stop>, ok: bool, ghost ids: seq<Id>)
    requires c.Valid() && k.Valid()
    requires Begins(c.naming, c.net, c.actor, req, observed.graph, observed.lbID, observed.vipID, observed.vsID)
    requires Ordered(c.net, k.kids, observed.Mirrored(), req, observed.vsID) && Closed(observed.Mirrored())
    requires observed.vsID == NO_ID || |req.stack.virtualServers| == 1
    requires req.stack.vip.name != Observed.LEGACY_VIP && forall s :: req.sha(s) != ""
    modifies c, k, observed
    ensures c.Valid() && k.Valid() && (ok ==> first.Ok? && req.stack.virtualServers != [] && req.stack.certificates == [])
    ensures ok ==> ScalarFollows(req.stack, old(observed.vsID), observed.graph, observed.vsID)
    ensures ok ==>
              && Begins(c.naming, c.net, c.actor, req, observed.graph, observed.lbID, observed.vipID, observed.vsID)
              && Ordered(c.net, k.kids, observed.Mirrored(), req, observed.vsID)
              && (Settled(c.net, req, observed.lbID, observed.vipID, observed.vipAddress, ids)
                  && (!req.aggregate ==> DistinctRoutes(old(k.kids), old(observed.Mirrored()), observed.graph, req, ids)) ==>
                    AtRest(c.net, k.kids, observed.graph, observed.Mirrored(), req, observed.lbID, observed.vipID, observed.vipAddress, observed.vsID))
  {
    hide Inv, Run, Span, WellFormed, Evolves, NamesLater, Begins, Publishable, Achieved, Finished, Ordered, Closed, ParentsReturned, AtRest,
      Settled, DistinctRoutes, PatchedOnly, KeepsVIP, KeepsToVIP, SparesOthers, AsksFor, ScalarFollows, Kid.WellFormedKids, Recovery.Names,
      Bridge.Publishes, Observed.Mirror;
    ghost var n0, k0, given := c.net, k.kids, observed.Mirrored();
    ghost var graph0, lbID0, vipID0, vsID0 := observed.graph, observed.lbID, observed.vipID, observed.vsID;
    BeginsSays(c.naming, n0, c.actor, req, graph0, lbID0, vipID0, vsID0);
    BeginsNames(c.naming, n0, c.actor, req, graph0, lbID0, vipID0, vsID0);
    ghost var s := n0.services[c.actor];
    ok := false;
    ghost var lb, subnet;
    first, ids, lb, subnet := EnsureStack(c, k, observed, req);
    if first.Err? {
      return;
    }
    ghost var n1, l1 := c.net, c.log;
    ScalarIsKept(req.stack, vsID0, observed.graph, observed.vsID);
    PublishableSays(c.naming, n1, c.actor, s, req, observed.graph, observed.lbID, observed.vipID, observed.vsID);
    ok := Bridge.Publish(c, observed, req, s, FrontOf(req, subnet));
    if !ok {
      return;
    }
    ghost var now := c.net;
    c.Await(Refused);
    SecondBegins(c.naming, n0, n1, l1, now, c.net, c.actor, req, graph0, lbID0, vipID0, vsID0, k0, given, k.kids, observed, ids);
    InvIsWellFormed(c.naming, c.net);
    if Settled(c.net, req, observed.lbID, observed.vipID, observed.vipAddress, ids)
       && (!req.aggregate ==> DistinctRoutes(k0, given, observed.graph, req, ids)) {
      SecondRests(n1, c.net, k0, given, k.kids, observed, req, vsID0, ids);
    }
  }

  /** What a pass has to find out about its surroundings it does find out: where the load balancer is placed, the default pools, and
      that no other listener holds one of the stack's frontends. */
  ghost predicate Findable(n: Net, req: Request, lb: Id, vip: Id) {
    && PlacementKnown(n, req, lb)
    && (forall j | 0 <= j < |req.stack.virtualServers| && req.aggregate :: HasAggregatePool(req.stack, req.stack.virtualServers[j]))
    && (forall id | id in n.listeners && n.listeners[id].lb == lb ::
          && n.listeners[id].readable
          && forall j | 0 <= j < |req.stack.virtualServers| && req.stack.virtualServers[j].name != n.listeners[id].name ::
               !SameFrontend(n.listeners[id], lb, vip, req.stack.virtualServers[j].protocol, req.stack.virtualServers[j].frontendPort))
  }

  lemma FindableAnswers(n: Net, g: Graph, req: Request, lb: Id, vip: Id, vsID: Id)
    requires Findable(n, req, lb, vip) && req.stack.virtualServers != [] && req.stack.certificates == []
    ensures Answerable(n, g, req, lb, vip, vsID)
  {
    hide PlacementKnown, HasAggregatePool, HashOf, CurrentID, SameFrontend;
  }

  /** A pass with clients of its own over a provider that does nothing meanwhile. Where nothing is to be done, it makes no provider
      call, whether it succeeds or not. */
  method EnsureAgain(naming: Naming, actor: string, n: Net, k: Kid.Kids, observed: Observed.State, req: Request, faults: nat, kidFaults: nat)
    returns (r: Result<bool, Stop>, ghost last: Net, ghost log: seq<Event>, ghost kids: Kid.Kids, ghost trace: seq<Kid.KidCall>)
    requires Inv(naming, n) && Kid.WellFormedKids(k)
    requires Begins(naming, n, actor, req, observed.graph, observed.lbID, observed.vipID, observed.vsID)
    requires Ordered(n, k, observed.Mirrored(), req, observed.vsID)
    modifies observed
    ensures old(AtRest(n, k, observed.graph, observed.Mirrored(), req, observed.lbID, observed.vipID, observed.vipAddress, observed.vsID)) ==>
              && PatchedOnly(n, [], last, log) && kids == k && trace == []
              && (r.Ok? ==> r == Ok(false) && Shot(observed) == old(Shot(observed)).(vsID := observed.vsID))
              && (faults == 0 && kidFaults == 0 && req.stack.virtualServers != [] && req.stack.certificates == []
                  && old(Findable(n, req, observed.lbID, observed.vipID)) ==>
                    r.Ok?)
    ensures r.Ok? ==> ScalarFollows(req.stack, old(observed.vsID), observed.graph, observed.vsID)
  {
    hide Inv, Run, WellFormed, NamesLater, Begins, Publishable, Achieved, Ordered, Closed, ParentsReturned, AtRest, PatchedOnly, KeepsVIP,
      KeepsToVIP, SparesOthers, AsksFor, ScalarFollows, Kid.WellFormedKids, Recovery.Names, Observed.Mirror, Findable, Answerable, AliasLost;
    if Findable(n, req, observed.lbID, observed.vipID) && req.stack.virtualServers != [] && req.stack.certificates == [] {
      FindableAnswers(n, observed.Mirrored(), req, observed.lbID, observed.vipID, observed.vsID);
    }
    var c := new Client(naming, actor, true, n, faults);
    var m := new Kid.ChildClient(k, kidFaults);
    ghost var ids, lb, subnet;
    r, ids, lb, subnet := EnsureStack(c, m, observed, req);
    last, log, kids, trace := c.net, c.log, m.kids, m.calls;
  }

  /** The same pass twice, with time to pass in between, and with a provider that does nothing during the second. If the provider
      has settled by then, the second pass makes no provider call, whether it succeeds or not; a success reports no change and
      returns the state that it was given; and it does succeed if no call fails and it finds out what it has to. `last`, `kids` and
      `trace` are the provider at the end of the second pass and what that pass did to pools and rules, `log` is what else it did,
      and `shot` what the first pass returned. */
  method EnsureTwice(c: Client, k: Kid.ChildClient, observed: Observed.State, req: Request, faults: nat, kidFaults: nat)
    returns (first: Result<bool, Stop>, second: Option<Result<bool, Stop>>, ghost ids: seq<Id>, ghost shot: Snapshot, ghost last: Net,
             ghost log: seq<Event>, ghost kids: Kid.Kids, ghost trace: seq<Kid.KidCall>)
    requires c.Valid() && k.Valid()
    requires Begins(c.naming, c.net, c.actor, req, observed.graph, observed.lbID, observed.vipID, observed.vsID)
    requires Ordered(c.net, k.kids, observed.Mirrored(), req, observed.vsID) && Closed(observed.Mirrored())
    requires observed.vsID == NO_ID || |req.stack.virtualServers| == 1
    requires req.stack.vip.name != Observed.LEGACY_VIP && forall s :: req.sha(s) != ""
    modifies c, k, observed
    ensures c.Valid() && k.Valid() && (second.Some? ==> first.Ok?)
    ensures second.Some? && Settled(c.net, req, shot.lbID, shot.vipID, shot.vipAddress, ids)
            && (!req.aggregate ==> DistinctRoutes(old(k.kids), old(observed.Mirrored()), shot.graph, req, ids)) ==>
              && PatchedOnly(c.net, [], last, log) && kids == k.kids && trace == []
              && (second.value.Ok? ==> second == Some(Ok(false)) && Shot(observed) == shot)
              && (faults == 0 && kidFaults == 0 && Findable(c.net, req, shot.lbID, shot.vipID) ==> second == Some(Ok(false)))
  {
    hide Inv, Run, Span, WellFormed, NamesLater, Begins, Publishable, Achieved, Ordered, Closed, ParentsReturned, AtRest, Settled,
      DistinctRoutes, PatchedOnly, KeepsVIP, KeepsToVIP, SparesOthers, AsksFor, ScalarFollows, Kid.WellFormedKids, Recovery.Names,
      Observed.Mirror, Findable, Answerable;
    second := None;
    var ok;
    first, ok, ids := EnsureAndWait(c, k, observed, req);
    shot, last, log, kids, trace := Shot(observed), c.net, [], k.kids, [];
    if !ok {
      return;
    }
    var again;
    again, last, log, kids, trace := EnsureAgain(c.naming, c.actor, c.net, k.kids, observed, req, faults, kidFaults);
    second := Some(again);
    if again.Ok? && observed.graph == shot.graph {
      FollowsAgain(req.stack, old(observed.vsID), shot.graph, shot.vsID, observed.vsID);
    }
  }

  lemma FollowsAgain(stack: Stack, vsID0: Id, g: Graph, vsID1: Id, vsID: Id)
    requires ScalarFollows(stack, vsID0, g, vsID1) && ScalarFollows(stack, vsID1, g, vsID)
    ensures vsID == vsID1
  {
  }

  lemma ScalarIsKept(stack: Stack, vsID0: Id, g: Graph, vsID: Id)
    requires ScalarFollows(stack, vsID0, g, vsID) && (vsID0 == NO_ID || |stack.virtualServers| == 1)
    ensures vsID == NO_ID || vsID in Observed.Ids(g.virtualServers)
  {
  }
}
