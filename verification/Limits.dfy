/** What the protection of provided parents does not cover, shown on states that the controller itself writes: a Service was
    given a load balancer and a VIP by its user and has been ensured; another member of its vip-group joins it. And: a Service
    was given a VIP, and its first pass stops after the checkpoint. */
module Limits {
  import opened Common
  import opened Model
  import opened Cluster
  import opened Protocol
  import opened Safety
  import opened Provider
  import opened Runs
  import opened Deployer
  import Bridge
  import opened Text
  import LBServices
  import VIPs
  import Observed

  const NAMES := Naming(s => if '/' in s then "x" else s, (s, p) => if s == "" || '/' in s then "x" else s)

  const LISTENER := VirtualServer("", 80, 30080, "TCP", "", "", 0, [], None, "", NO_OWNER)

  function Wanted(name: string, uid: Uid): Stack {
    Stack(LBService("", "", "net", "vpc", "", NO_OWNER), VIP("address", Ownership("Service", "ns", name, uid, "g")),
          [LISTENER], [], [], [], [ServicePort(80, [])])
  }

  function RequestOf(name: string, s: Service): Request {
    Request(Bridge.ForService(NAMES, "ns", name, s, Wanted(name, s.uid)), StrictLB("ns", s, name), StrictVIP("ns", s, name), false, true, true,
            b => true, b => None, text => "digest")
  }

  // ----- The Service that was given load balancer and VIP -----

  const GIVEN := Service("u", true, "g", true, "lb", "", "vip", "", "", NO_ID, None)
  const GIVEN_REQUEST := RequestOf("s", GIVEN)
  const GIVEN_VIP := Resource("address", "vip", "address", "10.0.0.1", "", Ownership("Service", "ns", "s", "u", "g"))

  /** Its graph at the end of its first pass: one load balancer, one VIP, one listener. */
  const GIVEN_GRAPH := EMPTY_GRAPH.(
    lbServices := map["s" := ParentEntry(GIVEN_REQUEST.stack, "lb")], vips := map["address" := GIVEN_VIP],
    virtualServers := map["s" := ListenerEntry(GIVEN_REQUEST, LISTENER.(name := "s"), "v", "s")])

  const ENSURED := Bridge.Published(
    Checkpointed(GIVEN, "lb", WithParent(Bridge.AnnotatedGraph(GIVEN), GIVEN_REQUEST.stack, "lb"), GIVEN_REQUEST.strictLB),
    GIVEN_REQUEST, GIVEN_GRAPH, "lb", "vip", "10.0.0.1", "v")

  const USERS_LB := LB("users", "active", "online", "vpc", "net", "", true)
  const SERVING := Listener("lb", "s", "vip", "TCP", 80, "active", true, "u")

  const START := Net(
    map["lb" := USERS_LB], map["vip" := Vip("lb", "10.0.0.1", "active", "net", "")], map["v" := SERVING], {"lb", "vip", "v"},
    {Seat("lb", "s", "vip")}, map["s" := ENSURED], "ns")

  lemma EnsuredIs()
    ensures ENSURED == Service("u", true, "g", true, "lb", PROVIDED, "vip", PROVIDED, "10.0.0.1", "v", Some(GIVEN_GRAPH))
    ensures ParentEntry(GIVEN_REQUEST.stack, "lb") == Resource("s", "lb", "s", "", "", Ownership("Service", "ns", "s", "u", "g"))
  {
  }

  lemma RecordedIs()
    ensures RecordedListeners(ENSURED) == {"v"}
  {
    EnsuredIs();
    hide HashOf;
    assert GIVEN_GRAPH.virtualServers["s"].externalID == "v";
  }

  lemma StartIsSound()
    ensures WellFormed(START) && Unique(START)
  {
    hide Unique, HashOf, Checkpointed, Bridge.Published;
    StartIsUnique();
  }

  lemma StartIsUnique()
    ensures Unique(START)
  {
    hide HashOf, Checkpointed, Bridge.Published;
  }

  lemma EntryRecords(n: Net, name: string, g: Graph, key: string, lb: Id)
    requires name in n.services && n.services[name].graph == Some(g) && key in g.lbServices && g.lbServices[key].externalID == lb
    requires OwnedBy(n.namespace, g.lbServices[key], name, n.services[name].uid)
    ensures RecordsParent(n, name, lb)
  {
    hide OwnedBy;
  }

  lemma OwnsItsName()
    ensures OwnName(NAMES, "s", "s")
  {
    assert Named(NAMES, "s", "s", 80);
  }

  lemma StartsOnRecord()
    ensures RecordsParent(START, "s", "lb") && OwnName(NAMES, "s", "s") && MadeOnRecord(NAMES, START, "s", "v")
    ensures KnownListener(NAMES, START, "s", "lb", "v")
  {
    hide HashOf, OwnName, RecordsParent, NAMES;
    EnsuredIs();
    OwnsItsName();
    EntryRecords(START, "s", GIVEN_GRAPH, "s", "lb");
  }

  lemma StartsInOrder()
    ensures ServiceInv(NAMES, START, "s")
  {
    EnsuredIs();
    RecordedIs();
    StartsOnRecord();
    hide HashOf, OwnName, RecordedListeners, RecordsParent, KnownListener;
    assert ScalarCovered("v", GIVEN_GRAPH);
  }

  // ----- A member of its vip-group joins -----

  /** The Service's graph has this load balancer and this VIP for its vip-group. */
  ghost predicate Lends(n: Net, name: string, p: Bridge.Parent) {
    && name in n.services && n.services[name].finalizer && n.services[name].group != "" && n.services[name].graph.Some?
    && Bridge.OffersParent(n.services[name].graph.value, n.services[name].group, p)
  }

  /** Another Service of the vip-group, without annotations of its own, is about to be created. */
  ghost predicate Newcomer(n: Net, t: string, to: Service, group: string) {
    && t !in n.services && to == Service(to.uid, true, group, false, NO_ID, "", NO_ID, "", "", NO_ID, None) && to.uid != ""
    && (forall s | s in n.services :: n.services[s].uid != to.uid)
    && (forall id | id in n.listeners :: n.listeners[id].maker != to.uid)
  }

  /** Where it wants its load balancer, unless the user has supplied one. */
  function Where(spec: Bridge.Spec): Placement
    requires spec.stack.Some?
  {
    var lb := spec.stack.value.lbService;
    Placement(lb.networkID, lb.vpcID, lb.region)
  }

  /** The state that its pass starts from: the parents of its sibling, with their ids mirrored. */
  function Borrowed(to: Service, p: Bridge.Parent): Graph {
    Bridge.AnnotatedGraph(to.(lbID := p.lb.externalID, vipID := p.vip.externalID, vipAddress := p.vip.address,
                              graph := Some(Bridge.ParentState(p))))
  }

  /** The checkpoint of that pass. */
  function Joined(to: Service, req: Request, p: Bridge.Parent): Service {
    Checkpointed(to.(finalizer := true), p.lb.externalID, WithParent(Borrowed(to, p), req.stack, p.lb.externalID), req.strictLB)
  }

  const PARENT := Bridge.Parent(ParentEntry(GIVEN_REQUEST.stack, "lb"), "address", GIVEN_VIP)

  /** Such a state is what the pass above leaves behind. */
  lemma APassLeavesSuchAState()
    ensures Inv(NAMES, START) && Lends(START, "s", PARENT) && PARENT.lb.externalID == "lb" && PARENT.vip.externalID == "vip"
    ensures HoldsProvided(START, "s", "lb") && HoldsLB(START, "s", "lb")
    ensures HoldsProvidedVIP(START, "s", "vip") && HoldsVIP(START, "s", "lb", "vip")
  {
    EnsuredIs();
    StartIsSound();
    StartsOnRecord();
    StartsInOrder();
    hide HashOf, RecordedListeners, RecordsParent, ServiceInv, MadeOnRecord, Unique, WellFormed;
    assert GIVEN_GRAPH.lbServices["s"] == PARENT.lb;
  }

  /** What a Service without finalizer and graph writes first. */
  predicate Untouched(to: Service) {
    to.wanted && !to.finalizer && to.graph.None? && to.lbMode == "" && to.vipMode == "" && to.vsID == NO_ID
    && (to.vipID != NO_ID ==> to.lbID != NO_ID)
  }

  lemma JoinerBegins(nm: Naming, n: Net, name: string, p: Bridge.Parent, t: string, to: Service, spec: Bridge.Spec)
    requires Inv(nm, n) && Bridge.ProperNames(nm) && spec.stack.Some? && Lends(n, name, p) && name != t
    requires t in n.services && n.services[t] == to.(finalizer := true)
    requires to == Service(to.uid, true, n.services[name].group, false, NO_ID, "", NO_ID, "", "", NO_ID, None)
    ensures Begins(nm, n, t, Bridge.RequestOf(nm, n.namespace, t, to.(finalizer := true), spec), Bridge.ParentState(p), p.lb.externalID,
                   p.vip.externalID, NO_ID)
    ensures !Bridge.RequestOf(nm, n.namespace, t, to.(finalizer := true), spec).strictLB
    ensures p.vip.externalID in Observed.Ids(Bridge.ParentState(p).vips) && p.lb.externalID != NO_ID
  {
    hide Inv, KeysFollowOwner, RecordedListeners, Reaches, Begins, Bridge.ProperNames, Bridge.ForService;
    var s := n.services[t];
    assert Bridge.Sibling(n, t, name);
    Bridge.ParentStateFits(nm, n, t, p);
    Bridge.SharedIsReached(n, t, p);
    Bridge.EmptyGraphFits(nm, n, s);
    Bridge.StateBegins(nm, n, t, s, Bridge.RequestOf(nm, n.namespace, t, s, spec), spec.stack.value, EMPTY_GRAPH, Bridge.ParentState(p),
                       p.lb.externalID, p.vip.externalID);
  }

  /** The checkpoint of a first pass, from the graph `given` with its ids mirrored, is allowed. */
  lemma CheckpointIsAllowed(nm: Naming, n: Net, req: Request, given: Graph, lb: Id, vip: Id, address: string, t: string, to: Service)
    requires Inv(nm, n) && t in n.services && n.services[t] == to.(finalizer := true) && Untouched(to) && lb != NO_ID
    requires Begins(nm, n, t, req, given, lb, vip, NO_ID) && given.virtualServers == map[]
    ensures var g := Bridge.AnnotatedGraph(to.(lbID := lb, vipID := vip, vipAddress := address, graph := Some(given)));
            PatchGuard(nm, n, t, Checkpointed(to.(finalizer := true), lb, WithParent(g, req.stack, lb), req.strictLB), NO_FRONT)
  {
    hide Inv, Begins, PatchGuard, LBServices.Empty, OwnParents;
    var g := Bridge.AnnotatedGraph(to.(lbID := lb, vipID := vip, vipAddress := address, graph := Some(given)));
    var r := Resource(Observed.LEGACY_LB, lb, "", "", "", NO_OWNER);
    assert g.lbServices == Observed.Mirror(given.lbServices, Observed.LEGACY_LB, lb, r);
    var v := Resource(Observed.LEGACY_VS, NO_ID, "", "", "", NO_OWNER);
    assert g.virtualServers == Observed.Mirror(given.virtualServers, Observed.LEGACY_VS, NO_ID, v);
    ParentFits(nm, n, n, t, req, given, g, lb, vip, NO_ID, lb, NO_FRONT);
  }

  lemma Admits(nm: Naming, n: Net, m: Net, name: string, to: Service, group: string)
    requires Newcomer(n, name, to, group) && m == n.(services := n.services[name := to])
    ensures Legal(nm, Event(Outsider, Admit(name, to), n, m))
  {
  }

  lemma Writes(nm: Naming, n: Net, m: Net, name: string, call: Call, to: Service)
    requires ControllerGuard(nm, n, name, call) && m == n.(services := n.services[name := to]) && name in n.services
    requires match call
             case AddFinalizer => to == n.services[name].(finalizer := true)
             case RemoveFinalizer => to == n.services[name].(finalizer := false)
             case Patch(p, _) => to == p
             case _ => false
    ensures Legal(nm, Event(Controller(name), call, n, m))
  {
    hide ControllerGuard;
  }

  lemma Goes(nm: Naming, start: Net, log: seq<Event>, e: Event)
    requires Inv(nm, start) && Run(nm, start, log, e.pre) && Legal(nm, e)
    ensures Run(nm, start, log + [e], e.post) && Inv(nm, e.post)
  {
    hide Run, Legal, Inv, Evolves;
    RunKeepsInv(nm, start, log, e.pre);
    LegalKeepsInv(nm, e);
    InvIsWell(nm, e.post);
    EvolvesIsReflexive(e.post);
    RunGrows(nm, start, log, e, e.post);
  }

  lemma NothingHappened(nm: Naming, n: Net)
    requires Inv(nm, n)
    ensures Run(nm, n, [], n)
  {
    hide Inv, Evolves;
    InvIsWell(nm, n);
    EvolvesIsReflexive(n);
  }

  /** The newcomer's first pass up to its checkpoint. */
  lemma Joins(nm: Naming, n: Net, name: string, p: Bridge.Parent, t: string, to: Service, spec: Bridge.Spec)
    returns (log: seq<Event>, m: Net, req: Request)
    requires Inv(nm, n) && Bridge.ProperNames(nm) && spec.stack.Some? && Lends(n, name, p)
    requires Newcomer(n, t, to, n.services[name].group)
    ensures req == Bridge.RequestOf(nm, n.namespace, t, to.(finalizer := true), spec) && !req.strictLB
    ensures m == n.(services := n.services[t := Joined(to, req, p)])
    ensures Run(nm, n, log, m) && Inv(nm, m) && t != name && name in n.services && |log| == 3
    ensures forall e | e in log :: e.actor == Outsider || e.actor == Controller(t)
    ensures p.vip.externalID in Observed.Ids(Bridge.ParentState(p).vips) && p.lb.externalID != NO_ID
  {
    hide Inv, Run, Legal, Begins, Bridge.RequestOf, PatchGuard, Bridge.OffersParent, Bridge.ProperNames;
    var n1 := n.(services := n.services[t := to]);
    var n2 := n1.(services := n1.services[t := to.(finalizer := true)]);
    req := Bridge.RequestOf(nm, n.namespace, t, to.(finalizer := true), spec);
    m := n2.(services := n2.services[t := Joined(to, req, p)]);
    var e0 := Event(Outsider, Admit(t, to), n, n1);
    var e1 := Event(Controller(t), AddFinalizer, n1, n2);
    var e2 := Event(Controller(t), Patch(Joined(to, req, p), NO_FRONT), n2, m);
    NothingHappened(nm, n);
    Admits(nm, n, n1, t, to, n.services[name].group);
    Goes(nm, n, [], e0);
    Writes(nm, n1, n2, t, AddFinalizer, to.(finalizer := true));
    Goes(nm, n, [] + [e0], e1);
    JoinerBegins(nm, n2, name, p, t, to, spec);
    CheckpointIsAllowed(nm, n2, req, Bridge.ParentState(p), p.lb.externalID, p.vip.externalID, p.vip.address, t, to);
    Writes(nm, n2, m, t, Patch(Joined(to, req, p), NO_FRONT), Joined(to, req, p));
    Goes(nm, n, [] + [e0] + [e1], e2);
    log := [] + [e0] + [e1] + [e2];
    assert m.services == n.services[t := Joined(to, req, p)];
  }

  /** After it the newcomer holds both parents as managed, with the VIP in its graph, but not on record as its own. */
  lemma JoinedHolds(namespace: string, to: Service, req: Request, p: Bridge.Parent, t: string)
    requires Untouched(to) && to.lbID == NO_ID && to.vipID == NO_ID && p.lb.externalID != NO_ID && !req.strictLB
    requires OwnedBy(namespace, Resource("", "", "", "", "", req.stack.lbService.ownership), t, to.uid)
    requires p.vip.externalID in Observed.Ids(Bridge.ParentState(p).vips)
    ensures var s := Joined(to, req, p);
            && s == to.(finalizer := true, lbID := p.lb.externalID, lbMode := MANAGED, graph := s.graph)
            && !StrictLB(namespace, s, t) && !StrictVIP(namespace, s, t) && SoleParent(s, p.lb.externalID) && RecordedListeners(s) == {}
            && p.vip.externalID in Observed.Ids(VIPEntries(s))
            && s.graph.Some? && NamesParent(namespace, s.graph.value, t, to.uid, p.lb.externalID)
  {
    var s := Joined(to, req, p);
    var key := req.stack.lbService.name;
    BorrowedIs(to, p);
    assert key in RecordedParents(s) && OwnedBy(namespace, RecordedParents(s)[key], t, s.uid);
    assert key in s.graph.value.lbServices && s.graph.value.lbServices[key].externalID == p.lb.externalID;
  }

  lemma BorrowedIs(to: Service, p: Bridge.Parent)
    requires to.vsID == NO_ID
    ensures Borrowed(to, p).virtualServers == map[]
    ensures Observed.Ids(Bridge.ParentState(p).vips) <= Observed.Ids(Borrowed(to, p).vips)
    ensures exists r: Resource :: r.ownership == NO_OWNER
              && Borrowed(to, p).lbServices == Observed.Mirror(Bridge.ParentState(p).lbServices, Observed.LEGACY_LB, p.lb.externalID, r)
  {
    var r := Resource(Observed.LEGACY_LB, p.lb.externalID, "", "", "", NO_OWNER);
    assert Borrowed(to, p).lbServices == Observed.Mirror(Bridge.ParentState(p).lbServices, Observed.LEGACY_LB, p.lb.externalID, r);
    var v := Resource(Observed.LEGACY_VIP, p.vip.externalID, "", p.vip.address, "", NO_OWNER);
    assert Borrowed(to, p).vips == Observed.Mirror(Bridge.ParentState(p).vips, Observed.LEGACY_VIP, p.vip.externalID, v);
    Observed.MirrorKeepsEntries(Bridge.ParentState(p).vips, Observed.LEGACY_VIP, p.vip.externalID, v);
  }

  lemma OwnerOf(nm: Naming, namespace: string, t: string, to: Service, spec: Bridge.Spec)
    requires spec.stack.Some?
    ensures OwnedBy(namespace, Resource("", "", "", "", "", Bridge.RequestOf(nm, namespace, t, to, spec).stack.lbService.ownership), t, to.uid)
  {
  }

  /** The step in which a load balancer is asked to be deleted. */
  lemma Deletes(nm: Naming, n: Net, t: string, lb: Id, why: Why)
    requires MayDelete(n, t, lb, why) && lb in n.lbs
    ensures Legal(nm, Event(Controller(t), DeleteLB(lb, why), n, n.(lbs := n.lbs[lb := n.lbs[lb].(status := DELETING)])))
  {
    hide MayDelete;
    assert t in n.services by { DeletersExist(n, t, lb, why); }
  }

  lemma DeletersExist(n: Net, t: string, lb: Id, why: Why)
    requires MayDelete(n, t, lb, why)
    ensures t in n.services
  {
  }

  lemma FailingEvolves(n: Net, lb: Id)
    requires WellFormed(n) && lb in n.lbs && n.lbs[lb].status != DELETING
    ensures Evolves(n, n.(lbs := n.lbs[lb := n.lbs[lb].(status := "failed", operatingStatus := "")]))
  {
  }

  lemma FailingIsDown(l: LB)
    requires l.status == "failed"
    ensures LBServices.Down(l)
  {
    assert Lower("failed") == "failed" by {
      assert forall i | 0 <= i < 6 :: LowerChar("failed"[i]) == "failed"[i];
    }
  }

  lemma LendersExist(n: Net, name: string, p: Bridge.Parent)
    requires Lends(n, name, p)
    ensures name in n.services && n.services[name].finalizer
  {
  }

  /** From every state in which a Service lends a provided load balancer to its vip-group, this can happen: another member
      joins, the load balancer fails, and the member's next pass has it deleted, while the Service itself is unchanged, still
      there, and still has the load balancer on record as provided. */
  lemma AnotherMemberRepairsAProvidedParent(nm: Naming, n: Net, name: string, p: Bridge.Parent, t: string, to: Service, spec: Bridge.Spec)
    returns (log: seq<Event>, now: Net)
    requires Inv(nm, n) && Bridge.ProperNames(nm) && spec.stack.Some? && Lends(n, name, p) && HoldsProvided(n, name, p.lb.externalID)
    requires Newcomer(n, t, to, n.services[name].group)
    requires p.lb.externalID in n.lbs && n.lbs[p.lb.externalID].status != DELETING && ReadsAsPlaced(n, p.lb.externalID, Where(spec))
    ensures Run(nm, n, log, now) && forall e | e in log :: e.actor == Outsider || e.actor == Controller(t)
    ensures |log| > 0 && var last, lb := log[|log| - 1], p.lb.externalID;
            && last.call == DeleteLB(lb, Repair(Where(spec))) && Dooms(last, lb) && LBServices.IsFailed(last.pre, Where(spec), lb)
            && HoldsProvided(last.pre, name, lb) && HoldsProvided(now, name, lb)
    ensures name in n.services && name in now.services && now.services[name] == n.services[name]
  {
    hide Inv, Run, Legal, Bridge.RequestOf, Joined, Bridge.OffersParent, Bridge.ProperNames, Newcomer, StrictLB, StrictVIP, SoleParent,
      RecordedListeners, LBServices.Down, Evolves, EqualFold, VIPEntries, NamesParent, Lends, Where;
    var lb := p.lb.externalID;
    LendersExist(n, name, p);
    NewcomersAre(n, t, to, n.services[name].group);
    var m, req;
    log, m, req := Joins(nm, n, name, p, t, to, spec);
    OwnerOf(nm, n.namespace, t, to.(finalizer := true), spec);
    JoinedHolds(n.namespace, to, req, p, t);
    var failed := m.(lbs := m.lbs[lb := m.lbs[lb].(status := "failed", operatingStatus := "")]);
    InvIsWell(nm, m);
    FailingEvolves(m, lb);
    RunDrifts(nm, n, log, m, failed);
    FailingIsDown(failed.lbs[lb]);
    assert Reaches(failed, t, lb);
    assert MayDelete(failed, t, lb, Repair(Where(spec)));
    Deletes(nm, failed, t, lb, Repair(Where(spec)));
    now := failed.(lbs := failed.lbs[lb := failed.lbs[lb].(status := DELETING)]);
    var e := Event(Controller(t), DeleteLB(lb, Repair(Where(spec))), failed, now);
    Goes(nm, n, log, e);
    log := log + [e];
  }

  lemma NewcomersAre(n: Net, t: string, to: Service, group: string)
    requires Newcomer(n, t, to, group)
    ensures t !in n.services && to == Service(to.uid, true, group, false, NO_ID, "", NO_ID, "", "", NO_ID, None)
  {
  }

  lemma SameListenersGone(n: Net, m: Net, ids: set<Id>)
    requires m.listeners == n.listeners
    ensures AllGone(n, ids) == AllGone(m, ids)
  {
  }

  lemma SameRecord(s: Service, t: Service)
    requires t == s.(wanted := t.wanted, finalizer := t.finalizer)
    ensures RecordedListeners(s) == RecordedListeners(t)
  {
  }

  lemma SoleAnyway(s: Service, lb: Id)
    requires SoleParent(s, lb)
    ensures SoleParent(s.(wanted := false), lb)
  {
    assert RecordedParents(s.(wanted := false)) == RecordedParents(s);
  }

  lemma NothingRecorded(n: Net)
    ensures AllGone(n, {})
  {
  }

  lemma Edits(nm: Naming, n: Net, m: Net, t: string, to: Service)
    requires t in n.services && to == n.services[t].(wanted := to.wanted) && m == n.(services := n.services[t := to])
    ensures Legal(nm, Event(Outsider, Edit(t, to), n, m))
  {
    hide RecordedListeners;
  }

  /** No other Service holds the load balancer. */
  ghost predicate HeldByAtMost(n: Net, a: string, b: string, lb: Id) {
    forall s | s in n.services && HoldsLB(n, s, lb) :: s == a || s == b
  }

  lemma NobodyShares(n: Net, t: string, name: string, lb: Id)
    requires HeldByAtMost(n, t, name, lb) && (name in n.services ==> !n.services[name].finalizer)
    ensures !Shared(n, t, lb)
  {
    hide RecordsParent;
  }

  lemma HoldersStay(n: Net, m: Net, a: string, b: string, lb: Id)
    requires HeldByAtMost(n, a, b, lb) && m.namespace == n.namespace
    requires forall s | s in m.services && s != a && s != b :: s in n.services && m.services[s] == n.services[s]
    ensures HeldByAtMost(m, a, b, lb)
  {
    forall s | s in m.services && HoldsLB(m, s, lb) ensures s == a || s == b {
      if s != a && s != b {
        assert HoldsLB(n, s, lb);
      }
    }
  }

  lemma LastMayDelete(n: Net, t: string, lb: Id)
    requires t in n.services && var s := n.services[t]; s.finalizer && !s.wanted && s.lbMode != PROVIDED && SoleParent(s, lb)
    requires !Shared(n, t, lb) && AllGone(n, RecordedListeners(n.services[t]))
    ensures MayDelete(n, t, lb, Cleanup)
  {
  }

  /** And the other case: once the Service that was given the load balancer has gone through its own cleanup (which spares the
      load balancer), the member that had joined is the last to hold it, and its cleanup deletes it. */
  lemma TheLastGroupMemberDeletesAProvidedParent(nm: Naming, n: Net, name: string, p: Bridge.Parent, t: string, to: Service,
                                                    spec: Bridge.Spec)
    returns (log: seq<Event>, now: Net)
    requires Inv(nm, n) && Bridge.ProperNames(nm) && spec.stack.Some? && Lends(n, name, p)
    requires HoldsProvided(n, name, p.lb.externalID) && Newcomer(n, t, to, n.services[name].group)
    requires p.lb.externalID in n.lbs && n.lbs[p.lb.externalID].status != DELETING
    requires AllGone(n, RecordedListeners(n.services[name])) && HeldByAtMost(n, t, name, p.lb.externalID)
    ensures Run(nm, n, log, now) && |log| == 6
    ensures forall e | e in log :: e.actor == Outsider || e.actor == Controller(t) || e == log[3]
    ensures log[3].actor == Controller(name) && log[3].call == RemoveFinalizer && HoldsProvided(log[3].pre, name, p.lb.externalID)
    ensures log[5].call == DeleteLB(p.lb.externalID, Cleanup) && Dooms(log[5], p.lb.externalID)
  {
    hide Inv, Run, Legal, Bridge.RequestOf, Joined, Bridge.OffersParent, Bridge.ProperNames, Newcomer, StrictLB, SoleParent, RecordedListeners,
      Evolves, AllGone, HeldByAtMost, Shared, MayDelete, StrictVIP, VIPEntries, NamesParent, Lends;
    var lb := p.lb.externalID;
    LendersExist(n, name, p);
    NewcomersAre(n, t, to, n.services[name].group);
    var m, req, events;
    events, m, req := Joins(nm, n, name, p, t, to, spec);
    OwnerOf(nm, n.namespace, t, to.(finalizer := true), spec);
    JoinedHolds(n.namespace, to, req, p, t);
    var freed := m.(services := m.services[name := m.services[name].(finalizer := false)]);
    var leaving := freed.(services := freed.services[t := freed.services[t].(wanted := false)]);
    now := leaving.(lbs := leaving.lbs[lb := leaving.lbs[lb].(status := DELETING)]);
    SameListenersGone(n, m, RecordedListeners(n.services[name]));
    Writes(nm, m, freed, name, RemoveFinalizer, freed.services[name]);
    var e3 := Event(Controller(name), RemoveFinalizer, m, freed);
    Goes(nm, n, events, e3);
    SameRecord(freed.services[t], freed.services[t].(wanted := false));
    Edits(nm, freed, leaving, t, freed.services[t].(wanted := false));
    var e4 := Event(Outsider, Edit(t, freed.services[t].(wanted := false)), freed, leaving);
    Goes(nm, n, events + [e3], e4);
    HoldersStay(n, leaving, t, name, lb);
    NobodyShares(leaving, t, name, lb);
    NothingRecorded(leaving);
    SoleAnyway(freed.services[t], lb);
    LastMayDelete(leaving, t, lb);
    Deletes(nm, leaving, t, lb, Cleanup);
    var e5 := Event(Controller(t), DeleteLB(lb, Cleanup), leaving, now);
    Goes(nm, n, events + [e3] + [e4], e5);
    log := events + [e3] + [e4] + [e5];
  }

  // ----- VIPs -----

  lemma FailingVIPEvolves(n: Net, vip: Id)
    requires WellFormed(n) && vip in n.vips && n.vips[vip].status != DELETING
    ensures Evolves(n, n.(vips := n.vips[vip := n.vips[vip].(status := "failed")]))
  {
  }

  lemma FailingVIPIsTerminal(n: Net, lb: Id, subnet: string, vip: Id)
    requires VIPs.Healthy(n, lb, subnet, false, vip)
    ensures VIPs.IsFailed(n.(vips := n.vips[vip := n.vips[vip].(status := "failed")]), lb, subnet, false, vip)
    ensures n.vips[vip].status != DELETING
  {
    hide EqualFold;
    assert Lower("failed") == "failed" by {
      assert forall i | 0 <= i < 6 :: LowerChar("failed"[i]) == "failed"[i];
    }
    assert Lower(DELETING)[0] == 'd';
  }

  lemma HealthyElsewhere(n: Net, m: Net, lb: Id, subnet: string, vip: Id)
    requires VIPs.Healthy(n, lb, subnet, false, vip) && m.vips == n.vips
    ensures VIPs.Healthy(m, lb, subnet, false, vip) && vip != NO_ID && vip in m.vips && m.vips[vip].lb == lb
  {
    hide VIPs.Validate;
  }

  /** The step in which a VIP is asked to be deleted. */
  lemma DeletesVIP(nm: Naming, n: Net, t: string, lb: Id, vip: Id, why: Why)
    requires MayDeleteVIP(nm, n, t, lb, vip, why) && vip in n.vips && n.vips[vip].lb == lb && n.vips[vip].status != DELETING
    ensures var e := Event(Controller(t), DeleteVIP(lb, vip, why), n, n.(vips := n.vips[vip := n.vips[vip].(status := DELETING)]));
            Legal(nm, e) && DoomsVIP(e, vip)
  {
    hide MayDeleteVIP;
    VIPDeletersExist(nm, n, t, lb, vip, why);
  }

  /** A failed VIP that the Service reaches is deleted. `log` leads to `m`, in which the VIP is healthy still. */
  lemma RepairsVIP(nm: Naming, n: Net, log: seq<Event>, m: Net, t: string, lb: Id, subnet: string, vip: Id)
    returns (last: Event)
    requires Inv(nm, n) && Run(nm, n, log, m) && Inv(nm, m) && VIPs.Healthy(m, lb, subnet, false, vip)
    requires MendsVIPs(m, t, lb) && ReachesVIP(nm, m, t, lb, subnet, vip)
    ensures last.actor == Controller(t) && last.call == DeleteVIP(lb, vip, Repair(InSubnet(subnet)))
    ensures DoomsVIP(last, vip) && VIPs.IsFailed(last.pre, lb, subnet, false, vip)
    ensures last.pre.services == last.post.services == m.services && Run(nm, n, log + [last], last.post)
  {
    hide Inv, Run, Legal, Evolves, VIPs.Validate, MendsVIPs, ReachesVIP;
    var failed := m.(vips := m.vips[vip := m.vips[vip].(status := "failed")]);
    InvIsWell(nm, m);
    FailingVIPIsTerminal(m, lb, subnet, vip);
    FailingVIPEvolves(m, vip);
    RunDrifts(nm, n, log, m, failed);
    ReachEvolves(nm, m, failed, t, lb, subnet, vip);
    MendsIsAnnotation(m, failed, t, lb);
    assert MayDeleteVIP(nm, failed, t, lb, vip, Repair(InSubnet(subnet)));
    DeletesVIP(nm, failed, t, lb, vip, Repair(InSubnet(subnet)));
    last := Event(Controller(t), DeleteVIP(lb, vip, Repair(InSubnet(subnet))), failed,
                  failed.(vips := failed.vips[vip := failed.vips[vip].(status := DELETING)]));
    Goes(nm, n, log, last);
  }

  /** The same for VIPs: from every state in which a Service lends a provided VIP to its vip-group, another member joins, the VIP
      fails, and the member's next pass has it deleted. */
  lemma AnotherMemberRepairsAProvidedVIP(nm: Naming, n: Net, name: string, p: Bridge.Parent, t: string, to: Service, spec: Bridge.Spec)
    returns (log: seq<Event>, now: Net)
    requires Inv(nm, n) && Bridge.ProperNames(nm) && spec.stack.Some? && Lends(n, name, p) && HoldsProvidedVIP(n, name, p.vip.externalID)
    requires Newcomer(n, t, to, n.services[name].group)
    requires VIPs.Healthy(n, p.lb.externalID, Where(spec).networkID, false, p.vip.externalID)
    ensures Run(nm, n, log, now) && forall e | e in log :: e.actor == Outsider || e.actor == Controller(t)
    ensures |log| > 0 && var last, lb, vip, subnet := log[|log| - 1], p.lb.externalID, p.vip.externalID, Where(spec).networkID;
            && last.call == DeleteVIP(lb, vip, Repair(InSubnet(subnet))) && DoomsVIP(last, vip)
            && VIPs.IsFailed(last.pre, lb, subnet, false, vip) && HoldsProvidedVIP(last.pre, name, vip) && HoldsProvidedVIP(now, name, vip)
    ensures name in n.services && name in now.services && now.services[name] == n.services[name]
  {
    hide Inv, Run, Legal, Bridge.RequestOf, Joined, Bridge.OffersParent, Bridge.ProperNames, Newcomer, StrictLB, StrictVIP, SoleParent,
      RecordedListeners, Evolves, VIPEntries, NamesParent, Lends, Where, VIPs.Healthy, VIPs.IsFailed;
    var lb, vip, subnet := p.lb.externalID, p.vip.externalID, Where(spec).networkID;
    LendersExist(n, name, p);
    NewcomersAre(n, t, to, n.services[name].group);
    var m, req;
    log, m, req := Joins(nm, n, name, p, t, to, spec);
    OwnerOf(nm, n.namespace, t, to.(finalizer := true), spec);
    JoinedHolds(n.namespace, to, req, p, t);
    HealthyElsewhere(n, m, lb, subnet, vip);
    assert ReachesVIP(nm, m, t, lb, subnet, vip);
    assert MendsVIPs(m, t, lb);
    var last := RepairsVIP(nm, n, log, m, t, lb, subnet, vip);
    log := log + [last];
    now := last.post;
  }

  lemma LentIsRecorded(s: Service, vip: Id)
    requires vip in Observed.Ids(VIPEntries(s))
    ensures vip in RecordedVIPs(s)
  {
  }

  lemma OwnVIPIsNotShared(n: Net, t: string, lb: Id)
    ensures !SharedVIP(n, t, lb, NO_ID)
  {
  }

  /** And a lent VIP does not survive a member whose first pass stops after the checkpoint: when that one goes away, its cleanup
      deletes the VIP, which it has in its graph only, while the Service that has lent it is unchanged, still there, and still
      has it on record. */
  lemma AnotherMemberCleansUpALentVIP(nm: Naming, n: Net, name: string, p: Bridge.Parent, t: string, to: Service, spec: Bridge.Spec)
    returns (log: seq<Event>, now: Net)
    requires Inv(nm, n) && Bridge.ProperNames(nm) && spec.stack.Some? && Lends(n, name, p) && Newcomer(n, t, to, n.services[name].group)
    requires HoldsVIP(n, name, p.lb.externalID, p.vip.externalID)
    requires p.vip.externalID in n.vips && n.vips[p.vip.externalID].lb == p.lb.externalID && n.vips[p.vip.externalID].status != DELETING
    ensures Run(nm, n, log, now) && forall e | e in log :: e.actor == Outsider || e.actor == Controller(t)
    ensures |log| > 0 && var last, lb, vip := log[|log| - 1], p.lb.externalID, p.vip.externalID;
            && last.call == DeleteVIP(lb, vip, Cleanup) && DoomsVIP(last, vip)
            && HoldsVIP(last.pre, name, lb, vip) && HoldsVIP(now, name, lb, vip)
    ensures name in n.services && name in now.services && now.services[name] == n.services[name]
  {
    hide Inv, Run, Legal, Bridge.RequestOf, Joined, Bridge.OffersParent, Bridge.ProperNames, Newcomer, StrictLB, StrictVIP, SoleParent,
      RecordedListeners, Evolves, VIPEntries, NamesParent, Lends, AllGone, SharedVIP, RecordedVIPs;
    var lb, vip := p.lb.externalID, p.vip.externalID;
    LendersExist(n, name, p);
    NewcomersAre(n, t, to, n.services[name].group);
    var m, req;
    log, m, req := Joins(nm, n, name, p, t, to, spec);
    OwnerOf(nm, n.namespace, t, to.(finalizer := true), spec);
    JoinedHolds(n.namespace, to, req, p, t);
    var leaver := m.services[t].(wanted := false);
    var leaving := m.(services := m.services[t := leaver]);
    SameRecord(m.services[t], leaver);
    Edits(nm, m, leaving, t, leaver);
    var e := Event(Outsider, Edit(t, leaver), m, leaving);
    Goes(nm, n, log, e);
    NothingRecorded(leaving);
    SoleAnyway(m.services[t], lb);
    SameVIPEntries(m.services[t], leaver);
    LentIsRecorded(leaver, vip);
    OwnVIPIsNotShared(leaving, t, lb);
    assert MayDeleteVIP(nm, leaving, t, lb, vip, Cleanup);
    DeletesVIP(nm, leaving, t, lb, vip, Cleanup);
    now := leaving.(vips := leaving.vips[vip := leaving.vips[vip].(status := DELETING)]);
    var last := Event(Controller(t), DeleteVIP(lb, vip, Cleanup), leaving, now);
    Goes(nm, n, log + [e], last);
    log := log + [e] + [last];
  }

  lemma SameVIPEntries(s: Service, t: Service)
    requires t == s.(wanted := t.wanted)
    ensures VIPEntries(t) == VIPEntries(s)
  {
  }

  // ----- A VIP that the user has supplied -----

  lemma SuppliedBegins(nm: Naming, n: Net, name: string, s: Service, spec: Bridge.Spec)
    requires Bridge.ProperNames(nm) && spec.stack.Some? && name in n.services && n.services[name] == s && s.finalizer && s.wanted
    requires s.graph.None? && s.vsID == NO_ID && s.lbID != NO_ID && s.vipID != NO_ID
    ensures Begins(nm, n, name, Bridge.RequestOf(nm, n.namespace, name, s, spec), EMPTY_GRAPH, s.lbID, s.vipID, NO_ID)
  {
    hide KeysFollowOwner, RecordedListeners, Begins, Bridge.ProperNames, Bridge.ForService, OffersLB, Strict;
    Bridge.EmptyGraphFits(nm, n, s);
    Bridge.StateBegins(nm, n, name, s, Bridge.RequestOf(nm, n.namespace, name, s, spec), spec.stack.value, EMPTY_GRAPH, EMPTY_GRAPH, s.lbID, s.vipID);
  }

  /** The checkpoint of the first pass of a Service to which the user has supplied both parents. */
  function Started(s: Service, req: Request): Service {
    Checkpointed(s.(finalizer := true), s.lbID, WithParent(Bridge.AnnotatedGraph(s.(graph := Some(EMPTY_GRAPH))), req.stack, s.lbID), req.strictLB)
  }

  /** It remembers that the load balancer was provided, but not that the VIP was. */
  lemma StartedForgets(n: Net, m: Net, name: string, s: Service, req: Request)
    requires Untouched(s) && s.lbID != NO_ID && s.vipID != NO_ID && req.strictLB
    requires OwnedBy(n.namespace, Resource("", "", "", "", "", req.stack.lbService.ownership), name, s.uid)
    requires m == n.(services := n.services[name := Started(s, req)])
    ensures StrictVIP(n.namespace, s, name) && MendsVIPs(m, name, s.lbID) && HoldsProvided(m, name, s.lbID)
    ensures m.services[name].vipID == s.vipID
  {
    var t := Started(s, req);
    var key := req.stack.lbService.name;
    EntryRecords(m, name, t.graph.value, key, s.lbID);
  }

  lemma StrictSupplied(namespace: string, s: Service, name: string)
    requires s.graph.None? && s.lbMode == "" && s.vipMode == "" && s.lbID != NO_ID
    ensures StrictLB(namespace, s, name)
  {
  }

  /** From every state in which a user has supplied load balancer and VIP to a Service that was not reconciled yet, this can
      happen: its first pass, which treats both strictly, stops after the checkpoint; the VIP fails; and the next pass has the
      VIP deleted. */
  lemma ASuppliedVIPIsForgotten(nm: Naming, n: Net, name: string, s: Service, spec: Bridge.Spec, subnet: string)
    returns (log: seq<Event>, now: Net)
    requires Inv(nm, n) && Bridge.ProperNames(nm) && spec.stack.Some?
    requires name in n.services && n.services[name] == s && Untouched(s) && s.lbID != NO_ID && s.vipID != NO_ID
    requires VIPs.Healthy(n, s.lbID, subnet, false, s.vipID)
    ensures StrictVIP(n.namespace, s, name)
    ensures Run(nm, n, log, now) && |log| == 3 && forall e | e in log :: e.actor == Controller(name)
    ensures log[0].call == AddFinalizer && log[1].call.Patch? && HoldsProvided(log[1].post, name, s.lbID)
    ensures log[2].call == DeleteVIP(s.lbID, s.vipID, Repair(InSubnet(subnet))) && DoomsVIP(log[2], s.vipID)
            && VIPs.IsFailed(log[2].pre, s.lbID, subnet, false, s.vipID)
  {
    hide Inv, Run, Legal, Bridge.RequestOf, Bridge.ProperNames, StrictLB, StrictVIP, Evolves, VIPEntries, VIPs.Healthy, VIPs.IsFailed, Begins,
      PatchGuard, Started, MendsVIPs;
    var s1 := s.(finalizer := true);
    var n1 := n.(services := n.services[name := s1]);
    var req := Bridge.RequestOf(nm, n.namespace, name, s1, spec);
    var m := n1.(services := n1.services[name := Started(s, req)]);
    NothingHappened(nm, n);
    Writes(nm, n, n1, name, AddFinalizer, s1);
    var e0 := Event(Controller(name), AddFinalizer, n, n1);
    Goes(nm, n, [], e0);
    SuppliedBegins(nm, n1, name, s1, spec);
    CheckpointIsAllowed(nm, n1, req, EMPTY_GRAPH, s.lbID, s.vipID, s.vipAddress, name, s);
    StartedIs(s, req);
    Writes(nm, n1, m, name, Patch(Started(s, req), NO_FRONT), Started(s, req));
    var e1 := Event(Controller(name), Patch(Started(s, req), NO_FRONT), n1, m);
    Goes(nm, n, [] + [e0], e1);
    StrictSupplied(n.namespace, s1, name);
    OwnerOf(nm, n.namespace, name, s1, spec);
    RequestIsStrict(nm, n.namespace, name, s1, spec);
    StartedForgets(n1, m, name, s, req);
    HealthyElsewhere(n, m, s.lbID, subnet, s.vipID);
    assert ReachesVIP(nm, m, name, s.lbID, subnet, s.vipID);
    var last := RepairsVIP(nm, n, [] + [e0] + [e1], m, name, s.lbID, subnet, s.vipID);
    log := [] + [e0] + [e1] + [last];
    now := last.post;
  }

  lemma StartedIs(s: Service, req: Request)
    ensures Started(s, req) ==
            Checkpointed(s.(finalizer := true), s.lbID,
                         WithParent(Bridge.AnnotatedGraph(s.(lbID := s.lbID, vipID := s.vipID, vipAddress := s.vipAddress, graph := Some(EMPTY_GRAPH))),
                                    req.stack, s.lbID),
                         req.strictLB)
  {
    assert s.(lbID := s.lbID, vipID := s.vipID, vipAddress := s.vipAddress, graph := Some(EMPTY_GRAPH)) == s.(graph := Some(EMPTY_GRAPH));
  }

  lemma RequestIsStrict(nm: Naming, namespace: string, t: string, to: Service, spec: Bridge.Spec)
    requires spec.stack.Some? && StrictLB(namespace, to, t)
    ensures Bridge.RequestOf(nm, namespace, t, to, spec).strictLB
  {
    hide StrictLB;
  }
}
