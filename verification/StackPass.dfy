/** One call of Deployer.EnsureStack (pkg/deploy/lbaas/deployer.go) from beginning to end, and what it guarantees. */
module StackPass {
  import opened Common
  import opened Model
  import opened Cluster
  import opened Protocol
  import opened Safety
  import opened Progress
  import opened Provider
  import opened Deployer
  import opened StackDeployer
  import opened GraphKeys
  import Closure
  import Convergence
  import Kid = Children
  import LC = ListenerChildren
  import Obsolete
  import Observed
  import Members
  import Monitors
  import Recovery
  import Rules
  import VIPs
  import VirtualServers

  // ----- What may be published -----

  /** The pass may write its state to the annotations of its Service, which was `s` at the start. */
  ghost predicate Publishable(nm: Naming, n: Net, actor: string, s: Service, req: Request, g: Graph, lb: Id, vip: Id, vsID: Id) {
    && Anchored(nm, n, actor, lb) && OwnParents(nm, n, actor, g.lbServices, lb) && Vouched(nm, n, actor, lb, KnownIDs(g, vsID))
    && n.services[actor] == s.(lbID := lb, lbMode := ModeOf(s.lbMode, req.strictLB, lb), graph := n.services[actor].graph)
    && (Provided(s.vipMode, s.vipID) ==> vip == s.vipID)
  }

  lemma PublishableStays(nm: Naming, actor: string, n0: Net, l0: seq<Event>, calls: seq<Call>, n: Net, l: seq<Event>, s: Service,
                         req: Request, g: Graph, lb: Id, vip: Id, vsID: Id)
    requires WellFormed(n0) && Span(actor, n0, l0, calls, n, l) && Publishable(nm, n0, actor, s, req, g, lb, vip, vsID)
    ensures Publishable(nm, n, actor, s, req, g, lb, vip, vsID)
  {
    hide WellFormed, Span, Vouched, OwnParents, Anchored;
    AnchoredSays(nm, n0, actor, lb);
    SpanKeepsServices(actor, n0, l0, calls, n, l);
    AnchoredStays(nm, actor, n0, l0, calls, n, l, lb);
    VouchedStays(nm, actor, n0, l0, calls, n, l, lb, KnownIDs(g, vsID));
    SameNamespaceParents(nm, n0, n, actor, g, lb);
  }

  lemma HeldIsPublishable(nm: Naming, n: Net, actor: string, req: Request, s: Service, g: Graph, lb: Id, vip: Id, vsID: Id)
    requires Holds(nm, n, actor, req, s, g, lb) && (vsID != NO_ID ==> vsID == s.vsID)
    requires Provided(s.vipMode, s.vipID) ==> vip == s.vipID
    ensures Publishable(nm, n, actor, s, req, g, lb, vip, vsID)
  {
    hide OwnParents, Anchored, RecordedListeners, KnownListener;
    AnchoredSays(nm, n, actor, lb);
    ScalarIsRecorded(n.services[actor]);
  }

  // ----- Up to the VIP -----

  /** What lies between the persisted state and the listener loop: only listeners and parents are put on record. */
  ghost predicate Prepared(given: Graph, g: Graph, names: set<string>) {
    && g == given.(lbServices := g.lbServices, vips := g.vips, virtualServers := g.virtualServers)
    && given.virtualServers.Keys <= g.virtualServers.Keys && (Keyed(given.virtualServers) ==> Keyed(g.virtualServers))
    && (forall key | key in g.virtualServers && key !in names :: key in given.virtualServers && g.virtualServers[key] == given.virtualServers[key])
  }

  lemma AdoptionPrepares(req: Request, given: Graph, g: Graph, h: Graph, seen: Net, lb: Id, found: map<string, VSInfo>)
    requires WellFormed(seen) && Recovery.FindsAll(seen, lb, req.stack.virtualServers, found)
    requires Prepared(given, g, {}) && h == g.(virtualServers := Adopt(req, g.virtualServers, found, req.stack.virtualServers))
    ensures Prepared(given, h, Recovery.Names(req.stack.virtualServers))
  {
    hide Adopt;
    AdoptedAreFound(req, g.virtualServers, found, req.stack.virtualServers);
    forall name | name in found ensures found[name].id != NO_ID {
      assert Summary(seen, found[name]);
    }
  }

  lemma RecoveryIsOrderly(actor: string, req: Request, given: Graph, g: Graph, h: Graph, seen: Net, m: Net, n: Net, l: seq<Event>, lb: Id,
                          subnet: string, found: Recovery.Recovered, vsID: Id)
    requires WellFormed(seen) && WellFormed(n) && NamesLater(m, seen) && Span(actor, seen, l, [], n, l)
    requires Recovery.Proven(seen, n, lb, subnet, req.stack.virtualServers, found) && Prepared(given, g, {})
    requires h == g.(virtualServers := Adopt(req, g.virtualServers, found.found, req.stack.virtualServers))
    ensures Prepared(given, h, Recovery.Names(req.stack.virtualServers))
    ensures Orderly(m, g, req.stack, vsID) && Convergence.NamesFit(req.stack.virtualServers) ==> Orderly(n, h, req.stack, vsID)
    ensures Near(n, h, req.stack, vsID) <= Near(m, g, req.stack, vsID)
  {
    hide Span, Adopt, Recovery.FindsAll, Orderly, Prepared, Convergence.NamesFit, Recovery.OnOneVIP, Listed, NamesLater, Near;
    AdoptionPrepares(req, given, g, h, seen, lb, found.found);
    AdoptionIsNear(actor, req, g, h, found.found, seen, n, l, lb, vsID);
    NearLater(m, seen, g, g, req.stack, vsID);
    if Orderly(m, g, req.stack, vsID) && Convergence.NamesFit(req.stack.virtualServers) {
      NoEmptyListener(seen);
      OrderlyLater(m, seen, g, g, req.stack, vsID);
      AdoptionIsOrderly(actor, req, g, h, found.found, seen, n, l, lb, vsID);
    }
  }

  // ----- One VIP -----

  /** All listeners of these names answer on one VIP. */
  ghost predicate OneVIP(n: Net, names: set<string>, vip: Id) {
    forall id | id in n.listeners && n.listeners[id].name in names :: n.listeners[id].vip == vip
  }

  predicate CarriesOn(n: Net, lb: Id, names: set<string>, id: Id) {
    id in n.listeners && n.listeners[id].lb == lb && n.listeners[id].name in names
  }

  /** Those of one load balancer do. */
  ghost predicate OneVIPOn(n: Net, lb: Id, names: set<string>, vip: Id) {
    forall id | CarriesOn(n, lb, names, id) :: n.listeners[id].vip == vip
  }

  /** The load balancer still carries a listener of these names that was there at the start. */
  ghost predicate StillCarries(n0: Net, n: Net, lb: Id, names: set<string>) {
    exists id :: id in n0.issued && CarriesOn(n, lb, names, id)
  }

  /** The VIP that the pass works with: the recorded one while it is listed; without one, the listed VIP on which all
      recovered listeners answer. */
  ghost predicate TakesVIP(n0: Net, n: Net, lb: Id, subnet: string, names: set<string>, vip0: Id, vip: Id) {
    if vip0 != NO_ID then Listed(n, lb, subnet, vip0) ==> vip == vip0
    else forall w | OneVIPOn(n0, lb, names, w) && StillCarries(n0, n, lb, names) && Listed(n, lb, subnet, w) :: vip == w
  }

  lemma ProvenTakesVIP(n0: Net, seen: Net, n: Net, lb: Id, subnet: string, vss: seq<VirtualServer>, r: Recovery.Recovered)
    requires NamesLater(n0, seen) && seen.listeners.Keys <= n0.listeners.Keys && NamesLater(seen, n) && WellFormed(n0)
    requires Recovery.Proven(seen, n, lb, subnet, vss, r)
    ensures TakesVIP(n0, n, lb, subnet, Recovery.Names(vss), NO_ID, r.vip)
  {
    hide Listed;
    var names := Recovery.Names(vss);
    forall w | OneVIPOn(n0, lb, names, w) && StillCarries(n0, n, lb, names) && Listed(n, lb, subnet, w) ensures r.vip == w {
      var id :| id in n0.issued && CarriesOn(n, lb, names, id);
      assert id in seen.listeners && seen.listeners[id].lb == lb && seen.listeners[id].name in names;
      forall name | name in r.found ensures r.found[name].id in seen.listeners && seen.listeners[r.found[name].id].vip == w {
        assert Summary(seen, r.found[name]);
        assert CarriesOn(n0, lb, names, r.found[name].id);
      }
      assert Recovery.OnOneVIP(seen, r.found, w);
    }
  }

  lemma CarriedBefore(n0: Net, n: Net, m: Net, lb: Id, names: set<string>)
    requires NamesLater(n0, n) && NamesLater(n, m) && StillCarries(n0, m, lb, names)
    ensures StillCarries(n0, n, lb, names)
  {
    var id :| id in n0.issued && CarriesOn(m, lb, names, id);
    assert CarriesOn(n, lb, names, id);
  }

  /** A VIP that is listed after another one was ensured was listed before, or is that one. */
  lemma ListedOrNew(actor: string, n: Net, l0: seq<Event>, calls: seq<Call>, m: Net, l: seq<Event>, lb: Id, subnet: string, vip: Id, w: Id)
    requires WellFormed(n) && Span(actor, n, l0, calls, m, l) && Listed(m, lb, subnet, w) && m.vips.Keys <= n.vips.Keys + {vip}
    ensures w == vip || Listed(n, lb, subnet, w)
  {
  }

  /** Ensuring the VIP keeps the one that was taken, while it is listed. */
  lemma EnsuringKeepsVIP(actor: string, n0: Net, n: Net, l0: seq<Event>, calls: seq<Call>, m: Net, l: seq<Event>, lb: Id, subnet: string,
                         names: set<string>, vip0: Id, taken: Id, vip: Id)
    requires WellFormed(n0) && WellFormed(n) && WellFormed(m) && NamesLater(n0, n) && Span(actor, n, l0, calls, m, l)
    requires TakesVIP(n0, n, lb, subnet, names, vip0, taken) && (vip0 != NO_ID ==> taken == vip0)
    requires vip == taken || taken == NO_ID || VIPs.Unlisted(m, lb, subnet, taken)
    requires m.vips.Keys <= n.vips.Keys + {vip}
    ensures TakesVIP(n0, m, lb, subnet, names, vip0, vip)
  {
    hide Span, NamesLater, StillCarries, OneVIPOn;
    SpanKeepsNames(actor, n, l0, calls, m, l);
    if vip0 == NO_ID {
      forall w | OneVIPOn(n0, lb, names, w) && StillCarries(n0, m, lb, names) && Listed(m, lb, subnet, w) ensures vip == w {
        ListedOrNew(actor, n, l0, calls, m, l, lb, subnet, vip, w);
        CarriedBefore(n0, n, m, lb, names);
        NothingWithoutID(m);
      }
    }
  }

  lemma NothingWithoutID(n: Net)
    requires WellFormed(n)
    ensures NO_ID !in n.issued && NO_ID !in n.vips
  {
  }

  lemma EnsuredKeepsVIP(nm: Naming, actor: string, n0: Net, n: Net, l0: seq<Event>, calls: seq<Call>, m: Net, l: seq<Event>, lb: Id,
                        names: set<string>, subnet: string, s: Service, vip0: Id, taken: Id, vip: Id)
    requires Inv(nm, n0) && WellFormed(n) && WellFormed(m) && NamesLater(n0, n) && Span(actor, n, l0, calls, m, l)
    requires n.listeners.Keys <= n0.listeners.Keys && (forall i | 0 <= i < |calls| :: !calls[i].CreateListener?)
    requires TakesVIP(n0, n, lb, subnet, names, vip0, taken) && (vip0 != NO_ID ==> taken == vip0)
    requires vip == taken || taken == NO_ID || VIPs.Unlisted(m, lb, subnet, taken)
    requires m.vips.Keys <= n.vips.Keys + {vip}
    requires actor in n0.services && actor in n.services && n0.services[actor] == s
    requires n.services[actor].uid == s.uid && n.services[actor].vipID == s.vipID
    requires (s.vipID != NO_ID ==> vip0 == s.vipID) && (s.vipID == NO_ID && vip0 != NO_ID ==> s.lbID == NO_ID)
    ensures TakesVIP(n0, m, lb, subnet, names, vip0, vip) && KeepsVIP(m, actor, lb, vip, Frontend(names, subnet))
    ensures NamesLater(n0, m) && m.listeners.Keys <= n0.listeners.Keys
  {
    hide Inv, Span, NamesLater, TakesVIP, KeepsVIP, WellFormed, VIPs.Unlisted;
    InvIsWellFormed(nm, n0);
    SpanKeepsNames(actor, n, l0, calls, m, l);
    SpanAddsNoListeners(actor, n, l0, calls, m, l);
    NamesLaterChains(n0, n, m);
    SpanKeepsServices(actor, n, l0, calls, m, l);
    EnsuringKeepsVIP(actor, n0, n, l0, calls, m, l, lb, subnet, names, vip0, taken, vip);
    TakenKeepsVIP(nm, n0, m, actor, lb, names, subnet, vip0, vip);
  }

  /** The VIP that a pass has taken respects the one its Service is on. A pass that starts from a sibling's VIP belongs to a
      Service without load balancer, and therefore without listeners. */
  lemma TakenKeepsVIP(nm: Naming, n0: Net, n: Net, actor: string, lb: Id, names: set<string>, subnet: string, vip0: Id, vip: Id)
    requires Inv(nm, n0) && WellFormed(n) && NamesLater(n0, n) && n.listeners.Keys <= n0.listeners.Keys && actor in n0.services
    requires actor in n.services && n.services[actor].uid == n0.services[actor].uid && n.services[actor].vipID == n0.services[actor].vipID
    requires n0.services[actor].vipID != NO_ID ==> vip0 == n0.services[actor].vipID
    requires n0.services[actor].vipID == NO_ID && vip0 != NO_ID ==> n0.services[actor].lbID == NO_ID
    requires TakesVIP(n0, n, lb, subnet, names, vip0, vip)
    ensures KeepsVIP(n, actor, lb, vip, Frontend(names, subnet))
  {
    hide Inv, Listed, OnlyOn;
    InvIsWellFormed(nm, n0);
    forall w | OnlyOn(n, lb, names, w) && Listed(n, lb, subnet, w) && Pinned(n, actor, lb, names, w) ensures vip == w {
      NothingWithoutID(n);
      ListedExists(n, lb, subnet, w);
      if n.services[actor].vipID == NO_ID {
        var id :| id in n.listeners && CarriesOne(n, lb, names, n.services[actor].uid, id);
        MakersHaveParents(nm, n0, actor, id);
        assert CarriesOn(n, lb, names, id);
        SeatsTell(n0, n, lb, names, w);
      }
    }
  }

  lemma ListedExists(n: Net, lb: Id, subnet: string, w: Id)
    requires Listed(n, lb, subnet, w)
    ensures w in n.vips
  {
  }

  lemma MakersHaveParents(nm: Naming, n: Net, actor: string, id: Id)
    requires Inv(nm, n) && actor in n.services && id in n.listeners && n.listeners[id].maker == n.services[actor].uid
    ensures n.services[actor].lbID != NO_ID && id in n.issued
  {
    hide Unique, NamesParent, OwnName, KeysFollowOwner, OwnParentIs;
    assert MadeOnRecord(nm, n, actor, id);
    assert ServiceInv(nm, n, actor);
  }

  lemma SeatsTell(n0: Net, n: Net, lb: Id, names: set<string>, w: Id)
    requires WellFormed(n0) && n0.seats <= n.seats && OnlyOn(n, lb, names, w)
    ensures OneVIPOn(n0, lb, names, w)
  {
    forall id | CarriesOn(n0, lb, names, id) ensures n0.listeners[id].vip == w {
      assert SeatOf(n0.listeners[id]) in n.seats;
    }
  }

  /** A pass in which new listeners answer on the VIP it has taken leaves all on one VIP. */
  ghost predicate KeepsToVIP(n0: Net, n: Net, lb: Id, subnet: string, names: set<string>, vip0: Id) {
    forall w | OneVIP(n0, names, w) && w in n0.issued && Listed(n, lb, subnet, w)
               && (vip0 == w || (vip0 == NO_ID && StillCarries(n0, n, lb, names))) ::
      OneVIP(n, names, w)
  }

  lemma NothingNewKeepsVIP(n0: Net, n: Net, lb: Id, subnet: string, names: set<string>, vip0: Id)
    requires WellFormed(n0) && NamesLater(n0, n) && n.listeners.Keys <= n0.listeners.Keys
    ensures KeepsToVIP(n0, n, lb, subnet, names, vip0)
  {
    hide Listed, StillCarries;
  }

  lemma PassKeepsToVIP(actor: string, n0: Net, n: Net, l0: seq<Event>, calls: seq<Call>, m: Net, l: seq<Event>, lb: Id, subnet: string,
                       names: set<string>, vip0: Id, vip: Id, front: Frontend)
    requires WellFormed(n0) && WellFormed(n) && NamesLater(n0, n) && n.listeners.Keys <= n0.listeners.Keys
    requires Span(actor, n, l0, calls, m, l) && CreatesOn(calls, vip, front) && TakesVIP(n0, n, lb, subnet, names, vip0, vip)
    ensures KeepsToVIP(n0, m, lb, subnet, names, vip0)
  {
    hide Listed, StillCarries, Span, CreatesOn;
    SpanKeepsNames(actor, n, l0, calls, m, l);
    CreationsAreOn(actor, n, l0, calls, m, l, vip, front);
    forall w | OneVIP(n0, names, w) && w in n0.issued && Listed(m, lb, subnet, w)
               && (vip0 == w || (vip0 == NO_ID && StillCarries(n0, m, lb, names)))
      ensures OneVIP(m, names, w)
    {
      StaysIssued(n0, n, w);
      ListedBefore(actor, n, l0, calls, m, l, lb, subnet, w);
      NothingWithoutID(n0);
      if vip0 == NO_ID {
        CarriedBefore(n0, n, m, lb, names);
      }
      assert vip == w;
    }
  }

  lemma CreationsAreOn(actor: string, n: Net, l0: seq<Event>, calls: seq<Call>, m: Net, l: seq<Event>, vip: Id, front: Frontend)
    requires Span(actor, n, l0, calls, m, l) && CreatesOn(calls, vip, front)
    ensures forall id | id in m.listeners && id !in n.listeners :: m.listeners[id].vip == vip
  {
    forall id | id in m.listeners && id !in n.listeners ensures m.listeners[id].vip == vip {
      assert MadeByOne(m.listeners[id], calls);
    }
  }

  lemma TakesVIPEarlier(n0: Net, n1: Net, n: Net, lb: Id, subnet: string, names: set<string>, vip0: Id, vip: Id)
    requires NamesLater(n0, n1) && n1.listeners.Keys <= n0.listeners.Keys && WellFormed(n0)
    requires TakesVIP(n1, n, lb, subnet, names, vip0, vip)
    ensures TakesVIP(n0, n, lb, subnet, names, vip0, vip)
  {
    hide Listed;
    forall w | OneVIPOn(n0, lb, names, w) ensures OneVIPOn(n1, lb, names, w) {
      forall id | CarriesOn(n1, lb, names, id) ensures n1.listeners[id].vip == w {
        assert CarriesOn(n0, lb, names, id);
      }
    }
    if StillCarries(n0, n, lb, names) {
      var id :| id in n0.issued && CarriesOn(n, lb, names, id);
      assert id in n1.issued && CarriesOn(n, lb, names, id);
    }
  }

  /** Load balancer and VIP are put on record under their names, and nothing else changes among the parents. */
  predicate ParentsRecorded(given: Graph, g: Graph, stack: Stack, lb: Id, vip: Id, address: string) {
    && g.lbServices == given.lbServices[stack.lbService.name := ParentEntry(stack, lb)]
    && g.vips == given.vips[stack.vip.name := VIPEntry(stack, vip, address)]
  }

  /** Recovery tells a VIP by the Service's own listeners. */
  lemma ToldIsRecovered(nm: Naming, actor: string, seen: Net, l: seq<Event>, n: Net, lb: Id, subnet: string, vss: seq<VirtualServer>,
                        r: Recovery.Recovered)
    requires WellFormed(seen) && Span(actor, seen, l, [], n, l) && Recovery.Proven(seen, n, lb, subnet, vss, r) && r.vip != NO_ID
    requires forall i | 0 <= i < |vss| :: OwnName(nm, actor, vss[i].name)
    ensures RecoveredFrom(nm, n, actor, lb, subnet, r.vip)
  {
    hide OwnName, Listed, Span, Recovery.OnOneVIP;
    SpanKeepsSeats(actor, seen, l, [], n, l);
    var name :| name in r.found && r.found[name].id in seen.listeners
      && (seen.listeners[r.found[name].id].vip == r.vip || !Listed(n, lb, subnet, seen.listeners[r.found[name].id].vip));
    assert Summary(seen, r.found[name]);
    var i :| 0 <= i < |vss| && vss[i].name == name;
    assert SeatOf(seen.listeners[r.found[name].id]) in n.seats;
  }

  /** Recovery as a whole. */
  method Recover(c: Client, observed: Observed.State, req: Request, lb: Id, subnet: string, ghost s: Service, ghost given: Graph)
    returns (err: Option<Stop>)
    requires c.Valid() && Publishable(c.naming, c.net, c.actor, s, req, observed.graph, lb, observed.vipID, observed.vsID)
    requires forall i | 0 <= i < |req.stack.virtualServers| ::
               req.stack.virtualServers[i].name != "" && OwnName(c.naming, c.actor, req.stack.virtualServers[i].name)
    requires Provided(s.vipMode, s.vipID) ==> observed.vipID != NO_ID
    requires Prepared(given, observed.graph, {})
    modifies c`net, c`faults, observed`graph, observed`vipID, observed`vipAddress
    ensures c.Valid() && c.faults <= old(c.faults) && c.Only(old(c.net), old(c.log))
    ensures old(observed.vipID) != NO_ID ==>
              observed.vipID == old(observed.vipID) && observed.vipAddress == old(observed.vipAddress)
              && observed.graph == old(observed.graph) && c.net == old(c.net) && c.log == old(c.log) && err.None?
    ensures err.None? ==>
              && Publishable(c.naming, c.net, c.actor, s, req, observed.graph, lb, observed.vipID, observed.vsID)
              && observed.graph == old(observed.graph).(virtualServers := observed.graph.virtualServers)
              && Prepared(given, observed.graph, Recovery.Names(req.stack.virtualServers))
              && (old(Orderly(c.net, observed.graph, req.stack, observed.vsID)) && Convergence.NamesFit(req.stack.virtualServers) ==>
                    Orderly(c.net, observed.graph, req.stack, observed.vsID))
              && Near(c.net, observed.graph, req.stack, observed.vsID) <= old(Near(c.net, observed.graph, req.stack, observed.vsID))
              && TakesVIP(old(c.net), c.net, lb, subnet, Recovery.Names(req.stack.virtualServers), old(observed.vipID), observed.vipID)
              && (old(observed.vipID) == NO_ID && observed.vipID != NO_ID ==> RecoveredFrom(c.naming, c.net, c.actor, lb, subnet, observed.vipID))
  {
    hide Inv, Run, Span, WellFormed, Vouched, OwnParents, Anchored, Adopt, OwnName, Recovery.Proven, Orderly, Convergence.NamesFit, KnownIDs,
      NamesLater, RecoveredFrom, Near;
    ghost var n0, l0, g := c.net, c.log, observed.graph;
    AnchoredSays(c.naming, n0, c.actor, lb);
    InvIsWellFormed(c.naming, n0);
    FewerKnown(c.naming, n0, c.actor, lb, g, observed.vsID);
    err := RecoverListeners(c, observed, req, lb, subnet);
    InvIsWellFormed(c.naming, c.net);
    ReadsKeepLog(c.actor, n0, l0, c.net, c.log);
    PublishableStays(c.naming, c.actor, n0, l0, [], c.net, c.log, s, req, g, lb, old(observed.vipID), observed.vsID);
    MoreKnown(c.naming, c.net, c.actor, lb, g, observed.graph, observed.vsID);
    if err.None? && old(observed.vipID) == NO_ID {
      ghost var seen, r :|
        && WellFormed(seen) && NamesLater(n0, seen) && seen.listeners.Keys <= n0.listeners.Keys && Span(c.actor, seen, c.log, [], c.net, c.log)
        && Recovery.Proven(seen, c.net, lb, subnet, req.stack.virtualServers, r)
        && observed.graph == g.(virtualServers := Adopt(req, g.virtualServers, r.found, req.stack.virtualServers))
        && observed.vipID == r.vip && (r.vip != NO_ID ==> observed.vipAddress == r.address);
      RecoveryIsOrderly(c.actor, req, given, g, observed.graph, seen, n0, c.net, c.log, lb, subnet, r, observed.vsID);
      SpanKeepsNames(c.actor, seen, c.log, [], c.net, c.log);
      ProvenTakesVIP(n0, seen, c.net, lb, subnet, req.stack.virtualServers, r);
      if r.vip != NO_ID {
        ToldIsRecovered(c.naming, c.actor, seen, c.log, c.net, lb, subnet, req.stack.virtualServers, r);
      }
    }
  }

  lemma FewerKnown(nm: Naming, n: Net, actor: string, lb: Id, g: Graph, vsID: Id)
    requires actor in n.services && Vouched(nm, n, actor, lb, KnownIDs(g, vsID))
    ensures Vouched(nm, n, actor, lb, Observed.Ids(g.virtualServers))
  {
    hide RecordedListeners, KnownListener;
  }

  lemma MoreKnown(nm: Naming, n: Net, actor: string, lb: Id, g: Graph, h: Graph, vsID: Id)
    requires actor in n.services && Vouched(nm, n, actor, lb, KnownIDs(g, vsID)) && Vouched(nm, n, actor, lb, Observed.Ids(h.virtualServers))
    ensures Vouched(nm, n, actor, lb, KnownIDs(h, vsID))
  {
    hide RecordedListeners, KnownListener;
  }

  lemma ParentPrepares(n: Net, m: Net, given: Graph, g: Graph, stack: Stack, lb: Id, vsID: Id)
    requires NamesLater(n, m) && WellFormed(m) && g == WithParent(given, stack, lb)
    ensures Prepared(given, g, {}) && (Orderly(n, given, stack, vsID) ==> Orderly(m, g, stack, vsID))
    ensures Near(m, g, stack, vsID) <= Near(n, given, stack, vsID)
  {
    hide Orderly, NamesLater, Near;
    NoEmptyListener(m);
    NearLater(n, m, given, g, stack, vsID);
    if Orderly(n, given, stack, vsID) {
      OrderlyLater(n, m, given, g, stack, vsID);
    }
  }

  lemma VIPPrepares(nm: Naming, actor: string, n: Net, l0: seq<Event>, calls: seq<Call>, m: Net, l: seq<Event>, s: Service, req: Request,
                    given: Graph, g: Graph, h: Graph, names: set<string>, lb: Id, vip0: Id, vip: Id, vsID: Id)
    requires WellFormed(n) && WellFormed(m) && Span(actor, n, l0, calls, m, l) && h == g.(vips := h.vips)
    requires Publishable(nm, n, actor, s, req, g, lb, vip0, vsID) && (Provided(s.vipMode, s.vipID) ==> vip == vip0)
    requires Prepared(given, g, names)
    ensures Publishable(nm, m, actor, s, req, h, lb, vip, vsID) && Prepared(given, h, names)
    ensures Orderly(n, g, req.stack, vsID) ==> Orderly(m, h, req.stack, vsID)
    ensures Near(m, h, req.stack, vsID) <= Near(n, g, req.stack, vsID)
    ensures lb in n.issued ==> lb in m.issued
  {
    hide Orderly, Span, Vouched, OwnParents, Anchored, KnownIDs, NamesLater, Near;
    PublishableStays(nm, actor, n, l0, calls, m, l, s, req, g, lb, vip0, vsID);
    SpanKeepsNames(actor, n, l0, calls, m, l);
    NoEmptyListener(m);
    SameKnown(g, h, vsID);
    NearLater(n, m, g, h, req.stack, vsID);
    if Orderly(n, g, req.stack, vsID) {
      OrderlyLater(n, m, g, h, req.stack, vsID);
    }
    if lb in n.issued {
      StaysIssued(n, m, lb);
    }
  }

  lemma SameKnown(g: Graph, h: Graph, vsID: Id)
    requires h.virtualServers == g.virtualServers
    ensures KnownIDs(h, vsID) == KnownIDs(g, vsID)
  {
  }

  /** Load balancer and VIP are recorded, ready and as asked. */
  predicate ParentsRest(n: Net, req: Request, lbID: Id, vipID: Id, vipAddress: string) {
    && LBRests(n, req, lbID) && VIPs.Healthy(n, lbID, SubnetOf(n, req, lbID), req.strictVIP, vipID)
    && VIPs.AddressNow(n, vipID, vipAddress) == vipAddress
  }

  lemma ParentsStillRest(n0: Net, l0: seq<Event>, n: Net, l: seq<Event>, req: Request, lbID: Id, vipID: Id, vipAddress: string)
    requires PatchedOnly(n0, l0, n, l)
    ensures ParentsRest(n0, req, lbID, vipID, vipAddress) ==>
              && VIPs.Healthy(n, lbID, SubnetOf(n0, req, lbID), req.strictVIP, vipID) && VIPs.AddressNow(n, vipID, vipAddress) == vipAddress
              && vipID != NO_ID
  {
    hide VIPs.Validate;
  }

  lemma RestingLB(n: Net, req: Request, lbID: Id, vipID: Id, vipAddress: string)
    ensures ParentsRest(n, req, lbID, vipID, vipAddress) ==> LBRests(n, req, lbID)
  {
    hide LBRests, VIPs.Healthy;
  }

  lemma HealthyIsRecorded(n: Net, lb: Id, subnet: string, strict: bool, vip: Id)
    ensures VIPs.Healthy(n, lb, subnet, strict, vip) ==> vip != NO_ID
  {
  }

  /** No load balancer is made; a VIP that lasts is kept, and none is made. */
  ghost predicate KeepsLasting(n0: Net, lb: Id, subnet: string, vipID: Id, l0: seq<Event>, l: seq<Event>, ok: bool, vip: Id) {
    MakesNoLB(l0, l) && (LastingVIP(n0, lb, subnet, vipID) ==> MakesNoVIP(l0, l) && (ok ==> vip == vipID))
  }

  /** A load balancer that lasts is kept, and none is made; and so it is with a VIP on it. */
  ghost predicate StaysWith(n0: Net, req: Request, lbID: Id, vipID: Id, l0: seq<Event>, l: seq<Event>, ok: bool, lb: Id, vip: Id) {
    Lasting(n0, lbID) ==>
      && MakesNoLB(l0, l) && (ok ==> lb == lbID)
      && (LastingVIP(n0, lbID, SubnetOf(n0, req, lbID), vipID) ==> MakesNoVIP(l0, l) && (ok ==> vip == vipID))
  }

  lemma StaysThroughout(n0: Net, n: Net, req: Request, lbID: Id, vipID: Id, l0: seq<Event>, l1: seq<Event>, l: seq<Event>, ok: bool, lb: Id,
                        subnet: string, vip: Id)
    requires MakesNoVIP(l0, l1)
    requires Lasting(n0, lbID) ==> MakesNoLB(l0, l1) && lb == lbID && subnet == SubnetOf(n0, req, lbID) && StillThere(n0, n, lbID)
    requires KeepsLasting(n, lb, subnet, vipID, l1, l, ok, vip)
    requires AsksFor(l0, l1, Recovery.Names(req.stack.virtualServers)) && AsksFor(l1, l, Recovery.Names(req.stack.virtualServers))
    ensures StaysWith(n0, req, lbID, vipID, l0, l, ok, lb, vip) && AsksFor(l0, l, Recovery.Names(req.stack.virtualServers))
  {
    hide AsksFor, Recovery.Names, MakesNoLB, MakesNoVIP, Lasting, LastingVIP, SubnetOf;
    MakesNoneOn(l0, l1, l);
    AsksOn(l0, l1, l, Recovery.Names(req.stack.virtualServers));
    if Lasting(n0, lbID) {
      StillLasting(n0, n, lbID);
    }
  }

  lemma StaysOn(n0: Net, req: Request, lbID: Id, vipID: Id, l0: seq<Event>, l1: seq<Event>, l: seq<Event>, ok: bool, lb: Id, vip: Id)
    requires StaysWith(n0, req, lbID, vipID, l0, l1, true, lb, vip) && MakesNoLB(l1, l) && MakesNoVIP(l1, l)
    ensures StaysWith(n0, req, lbID, vipID, l0, l, ok, lb, vip)
  {
    hide MakesNoLB, MakesNoVIP, Lasting, LastingVIP, SubnetOf;
    MakesNoneOn(l0, l1, l);
  }

  lemma NotYet(n0: Net, req: Request, lbID: Id, vipID: Id, l0: seq<Event>, l: seq<Event>, lb: Id, vip: Id)
    requires MakesNoVIP(l0, l) && (Lasting(n0, lbID) ==> MakesNoLB(l0, l))
    ensures StaysWith(n0, req, lbID, vipID, l0, l, false, lb, vip)
  {
    hide Lasting, LastingVIP, SubnetOf, MakesNoLB, MakesNoVIP;
  }

  lemma StaysAtFirst(n0: Net, req: Request, lbID: Id, vipID: Id, l: seq<Event>, lb: Id, vip: Id)
    ensures StaysWith(n0, req, lbID, vipID, l, l, false, lb, vip)
  {
    hide Lasting, LastingVIP, SubnetOf;
  }

  /** What a call for a VIP does to listeners, names and places. */
  lemma VIPCallsLeave(actor: string, n0: Net, n: Net, l0: seq<Event>, calls: seq<Call>, m: Net, l: seq<Event>, req: Request, lb: Id, subnet: string)
    requires WellFormed(n0) && NamesLater(n0, n) && n.listeners.Keys <= n0.listeners.Keys && Span(actor, n, l0, calls, m, l)
    requires forall i | 0 <= i < |calls| :: !calls[i].CreateListener?
    ensures NamesLater(n0, m) && m.listeners.Keys <= n0.listeners.Keys && AsksFor(l0, l, Recovery.Names(req.stack.virtualServers))
    ensures StandsAsAsked(n, req, lb, subnet) ==> StandsAsAsked(m, req, lb, subnet)
  {
    hide Span, WellFormed, NamesLater, AsksFor, Recovery.Names, StandsAsAsked;
    SpanKeepsNames(actor, n, l0, calls, m, l);
    SpanAddsNoListeners(actor, n, l0, calls, m, l);
    SpanAsks(actor, n, l0, calls, m, l, Recovery.Names(req.stack.virtualServers));
    NamesLaterChains(n0, n, m);
    if StandsAsAsked(n, req, lb, subnet) {
      PlacesStay(n, m, req, lb, subnet);
    }
  }

  /** The VIP, after recovery. `n0` is the state at the beginning of the pass, and `vip0` the VIP known then. */
  method SettleVIP(c: Client, observed: Observed.State, req: Request, lb: Id, subnet: string, ghost s: Service, ghost given: Graph,
                   ghost n0: Net, ghost vip0: Id)
    returns (r: Result<bool, Stop>)
    requires c.Valid() && Publishable(c.naming, c.net, c.actor, s, req, observed.graph, lb, observed.vipID, observed.vsID)
    requires Provided(s.vipMode, s.vipID) ==> req.strictVIP
    requires observed.vipID != NO_ID && !req.strictVIP ==> MayRepairVIP(c.naming, c.net, c.actor, lb, subnet, observed.vipID)
    requires Inv(c.naming, n0) && NamesLater(n0, c.net) && c.net.listeners.Keys <= n0.listeners.Keys
    requires c.actor in n0.services && n0.services[c.actor] == s
    requires TakesVIP(n0, c.net, lb, subnet, Recovery.Names(req.stack.virtualServers), vip0, observed.vipID)
    requires (vip0 != NO_ID ==> observed.vipID == vip0) && (s.vipID != NO_ID ==> vip0 == s.vipID)
    requires s.vipID == NO_ID && vip0 != NO_ID ==> s.lbID == NO_ID
    requires Prepared(given, observed.graph, Recovery.Names(req.stack.virtualServers))
    modifies c, observed`graph, observed`vipID, observed`vipAddress
    ensures c.Valid() && c.faults <= old(c.faults) && NamesLater(n0, c.net) && c.net.listeners.Keys <= n0.listeners.Keys
    ensures AsksFor(old(c.log), c.log, Recovery.Names(req.stack.virtualServers))
    ensures KeepsLasting(old(c.net), lb, subnet, old(observed.vipID), old(c.log), c.log, r.Ok?, observed.vipID)
    ensures old(StandsAsAsked(c.net, req, lb, subnet)) ==> StandsAsAsked(c.net, req, lb, subnet)
    ensures r.Ok? ==> VIPStands(c.net, lb, subnet, observed.vipID, observed.vipAddress)
    ensures c.quiet && old(VIPs.Healthy(c.net, lb, subnet, req.strictVIP, observed.vipID)) ==>
              && c.net == old(c.net) && c.log == old(c.log) && observed.vipID == old(observed.vipID)
              && (r.Ok? ==> observed.vipAddress == VIPs.AddressNow(c.net, observed.vipID, old(observed.vipAddress))
                            && (r.value <==> observed.vipAddress != old(observed.vipAddress)))
              && (old(c.faults) == 0 ==> r.Ok?)
    ensures r.Ok? ==>
              && TakesVIP(n0, c.net, lb, subnet, Recovery.Names(req.stack.virtualServers), vip0, observed.vipID)
              && KeepsVIP(c.net, c.actor, lb, observed.vipID, FrontOf(req, subnet))
              && Publishable(c.naming, c.net, c.actor, s, req, observed.graph, lb, observed.vipID, observed.vsID)
              && observed.vipID != NO_ID && (req.strictVIP ==> observed.vipID == old(observed.vipID))
              && (lb in old(c.net).issued ==> lb in c.net.issued)
              && observed.graph == old(observed.graph).(vips :=
                   old(observed.graph.vips)[req.stack.vip.name := VIPEntry(req.stack, observed.vipID, observed.vipAddress)])
              && Prepared(given, observed.graph, Recovery.Names(req.stack.virtualServers))
              && (old(Orderly(c.net, observed.graph, req.stack, observed.vsID)) ==> Orderly(c.net, observed.graph, req.stack, observed.vsID))
              && Near(c.net, observed.graph, req.stack, observed.vsID) <= old(Near(c.net, observed.graph, req.stack, observed.vsID))
  {
    hide Inv, Run, Span, WellFormed, Vouched, OwnParents, Anchored, OwnName, Orderly, Near, NamesLater, Prepared, Publishable,
      Recovery.Names, VIPs.Kept, VIPs.Allocates, TakesVIP, VIPs.Healthy, VIPs.Unlisted, VIPs.AddressNow, KnownIDs, KeepsVIP, AsksFor, MayRepairVIP,
      LastingVIP, MakesNoLB, MakesNoVIP, StandsAsAsked, VIPStands;
    ghost var n2, l2, g2, vip2 := c.net, c.log, observed.graph, observed.vipID;
    InvIsWellFormed(c.naming, n2);
    PublishableSays(c.naming, n2, c.actor, s, req, g2, lb, vip2, observed.vsID);
    var got;
    ghost var calls;
    got, calls := EnsureVIP(c, observed, req, lb, subnet);
    if calls == [] {
      ReadsKeepLog(c.actor, n2, l2, c.net, c.log);
      SpanAddsNoVIPs(c.actor, n2, l2, [], c.net, c.log);
    }
    InvIsWellFormed(c.naming, n0);
    VIPCallsLeave(c.actor, n0, n2, l2, calls, c.net, c.log, req, lb, subnet);
    if got.Err? {
      return Err(got.error);
    }
    InvIsWellFormed(c.naming, c.net);
    EnsuredKeepsVIP(c.naming, c.actor, n0, n2, l2, calls, c.net, c.log, lb, Recovery.Names(req.stack.virtualServers), subnet, s,
                    vip0, vip2, observed.vipID);
    VIPPrepares(c.naming, c.actor, n2, l2, calls, c.net, c.log, s, req, given, g2, observed.graph, Recovery.Names(req.stack.virtualServers), lb,
                vip2, observed.vipID, observed.vsID);
    return Ok(got.value);
  }

  /** The pass has its load balancer, and may go on to its VIP. */
  ghost predicate HasParent(nm: Naming, n0: Net, n: Net, actor: string, req: Request, s: Service, given: Graph, g: Graph, lb: Id, subnet: string,
                            vip: Id, vsID: Id) {
    && Publishable(nm, n, actor, s, req, g, lb, vip, vsID)
    && (forall i | 0 <= i < |req.stack.virtualServers| ::
          req.stack.virtualServers[i].name != "" && OwnName(nm, actor, req.stack.virtualServers[i].name))
    && (Provided(s.vipMode, s.vipID) ==> vip != NO_ID && req.strictVIP)
    && Prepared(given, g, {}) && Inv(nm, n0) && NamesLater(n0, n) && n.listeners.Keys <= n0.listeners.Keys
    && actor in n0.services && n0.services[actor] == s
    && (s.vipID != NO_ID ==> vip == s.vipID) && (s.vipID == NO_ID && vip != NO_ID ==> s.lbID == NO_ID)
    && (!req.strictVIP ==> MendsVIPs(n, actor, lb)) && (vip != NO_ID ==> ReachesVIP(nm, n, actor, lb, subnet, vip))
  }

  /** Recovery and VIP, after the load balancer `lb` was put on record. `n0` is the state at the beginning of the pass. */
  method TakeVIP(c: Client, observed: Observed.State, req: Request, lb: Id, subnet: string, ghost s: Service, ghost given: Graph,
                 ghost n0: Net)
    returns (r: Result<bool, Stop>)
    requires c.Valid() && HasParent(c.naming, n0, c.net, c.actor, req, s, given, observed.graph, lb, subnet, observed.vipID, observed.vsID)
    modifies c, observed`graph, observed`vipID, observed`vipAddress
    ensures c.Valid() && c.faults <= old(c.faults) && NamesLater(n0, c.net) && c.net.listeners.Keys <= n0.listeners.Keys
    ensures AsksFor(old(c.log), c.log, Recovery.Names(req.stack.virtualServers))
    ensures KeepsLasting(old(c.net), lb, subnet, old(observed.vipID), old(c.log), c.log, r.Ok?, observed.vipID)
    ensures old(StandsAsAsked(c.net, req, lb, subnet)) ==> StandsAsAsked(c.net, req, lb, subnet)
    ensures r.Ok? ==> VIPStands(c.net, lb, subnet, observed.vipID, observed.vipAddress)
    ensures c.quiet && old(VIPs.Healthy(c.net, lb, subnet, req.strictVIP, observed.vipID)) ==>
              && c.net == old(c.net) && c.log == old(c.log) && observed.vipID == old(observed.vipID)
              && (r.Ok? ==> observed.vipAddress == VIPs.AddressNow(c.net, observed.vipID, old(observed.vipAddress))
                            && (r.value <==> observed.vipAddress != old(observed.vipAddress))
                            && observed.graph.virtualServers == old(observed.graph).virtualServers)
              && (old(c.faults) == 0 ==> r.Ok?)
    ensures r.Ok? ==>
              && TakesVIP(n0, c.net, lb, subnet, Recovery.Names(req.stack.virtualServers), old(observed.vipID), observed.vipID)
              && KeepsVIP(c.net, c.actor, lb, observed.vipID, FrontOf(req, subnet))
              && Publishable(c.naming, c.net, c.actor, s, req, observed.graph, lb, observed.vipID, observed.vsID)
              && observed.vipID != NO_ID && (req.strictVIP && old(observed.vipID) != NO_ID ==> observed.vipID == old(observed.vipID))
              && (lb in old(c.net).issued ==> lb in c.net.issued)
              && observed.graph.lbServices == old(observed.graph.lbServices)
              && observed.graph.vips == old(observed.graph.vips)[req.stack.vip.name := VIPEntry(req.stack, observed.vipID, observed.vipAddress)]
              && Prepared(given, observed.graph, Recovery.Names(req.stack.virtualServers))
              && (old(Orderly(c.net, observed.graph, req.stack, observed.vsID)) && Convergence.NamesFit(req.stack.virtualServers) ==>
                    Orderly(c.net, observed.graph, req.stack, observed.vsID))
              && Near(c.net, observed.graph, req.stack, observed.vsID) <= old(Near(c.net, observed.graph, req.stack, observed.vsID))
  {
    hide Near, Inv, Run, Span, WellFormed, Vouched, OwnParents, Anchored, OwnName, Orderly, Convergence.NamesFit, NamesLater, Prepared, Publishable,
      Recovery.Names, TakesVIP, VIPs.Healthy, VIPs.AddressNow, KeepsVIP, AsksFor, MendsVIPs, RecoveredFrom, ReachesVIP,
      LastingVIP, MakesNoLB, MakesNoVIP, StandsAsAsked, VIPStands;
    ghost var n1, l1 := c.net, c.log;
    HealthyIsRecorded(n1, lb, subnet, req.strictVIP, observed.vipID);
    InvIsWellFormed(c.naming, n0);
    InvIsWellFormed(c.naming, n1);
    VIPs.LastingIsListed(n1, lb, subnet, observed.vipID);
    MakesNothing(l1);
    var err := Recover(c, observed, req, lb, subnet, s, given);
    ghost var n2, l2 := c.net, c.log;
    RecoveryLeaves(c.actor, n0, n1, l1, n2, l2, req, lb, subnet);
    if err.Some? {
      return Err(err.value);
    }
    MendsIsAnnotation(n1, n2, c.actor, lb);
    PublishableSays(c.naming, n2, c.actor, s, req, observed.graph, lb, observed.vipID, observed.vsID);
    RecoveredIsReached(c.naming, n2, c.actor, lb, subnet, observed.vipID);
    TakesVIPEarlier(n0, n1, n2, lb, subnet, Recovery.Names(req.stack.virtualServers), old(observed.vipID), observed.vipID);
    r := SettleVIP(c, observed, req, lb, subnet, s, given, n0, old(observed.vipID));
  }

  /** What reading does to listeners, names and places. */
  lemma RecoveryLeaves(actor: string, n0: Net, n1: Net, l1: seq<Event>, n: Net, l: seq<Event>, req: Request, lb: Id, subnet: string)
    requires WellFormed(n0) && NamesLater(n0, n1) && n1.listeners.Keys <= n0.listeners.Keys && Span(actor, n1, l1, [], n, l)
    ensures l == l1 && NamesLater(n0, n) && NamesLater(n1, n) && n.listeners.Keys <= n0.listeners.Keys
    ensures AsksFor(l1, l, Recovery.Names(req.stack.virtualServers)) && (lb in n1.issued ==> lb in n.issued)
    ensures StandsAsAsked(n1, req, lb, subnet) ==> StandsAsAsked(n, req, lb, subnet)
    ensures n.services == n1.services && n.namespace == n1.namespace
  {
    hide Span, NamesLater, AsksFor, StandsAsAsked, WellFormed, Recovery.Names;
    SpanKeepsNames(actor, n1, l1, [], n, l);
    if StandsAsAsked(n1, req, lb, subnet) {
      PlacesStay(n1, n, req, lb, subnet);
    }
    OnlyKeepsNames(actor, n0, n1, l1, n, l);
    SpanAddsNoListeners(actor, n1, l1, [], n, l);
    ReadsKeepLog(actor, n1, l1, n, l);
    AsksNothing(l1, Recovery.Names(req.stack.virtualServers));
    if lb in n1.issued {
      OnlyKeepsIssued(actor, n1, l1, n, l, lb);
    }
    SpanKeepsServices(actor, n1, l1, [], n, l);
  }

  lemma RecoveredIsReached(nm: Naming, n: Net, actor: string, lb: Id, subnet: string, vip: Id)
    requires actor in n.services
    ensures n.services[actor].vipID == NO_ID && vip != NO_ID && RecoveredFrom(nm, n, actor, lb, subnet, vip) ==>
              ReachesVIP(nm, n, actor, lb, subnet, vip)
  {
    hide RecoveredFrom;
  }

  /** Load balancer with checkpoint. */
  method PrepareLB(c: Client, observed: Observed.State, req: Request, ghost s: Service) returns (r: Result<Parents, Stop>)
    requires c.Valid() && c.actor in c.net.services && s == c.net.services[c.actor]
    requires Begins(c.naming, c.net, c.actor, req, observed.graph, observed.lbID, observed.vipID, observed.vsID)
    modifies c, observed
    ensures c.Valid() && c.faults <= old(c.faults) && AsksFor(old(c.log), c.log, Recovery.Names(req.stack.virtualServers))
    ensures observed.vipID == old(observed.vipID) && observed.vipAddress == old(observed.vipAddress)
            && observed.vsID == old(observed.vsID) && observed.vsName == old(observed.vsName)
    ensures NamesLater(old(c.net), c.net) && c.net.listeners.Keys <= old(c.net).listeners.Keys
    ensures MakesNoVIP(old(c.log), c.log) && (r.Ok? ==> StandsAsAsked(c.net, req, r.value.lb, r.value.subnet))
    ensures old(Lasting(c.net, observed.lbID)) ==>
              && MakesNoLB(old(c.log), c.log)
              && (r.Ok? ==> r.value.lb == old(observed.lbID) && r.value.subnet == SubnetOf(old(c.net), req, old(observed.lbID))
                            && StillThere(old(c.net), c.net, old(observed.lbID)))
    ensures c.quiet && old(ParentsRest(c.net, req, observed.lbID, observed.vipID, observed.vipAddress)) ==>
              && PatchedOnly(old(c.net), old(c.log), c.net, c.log)
              && (r.Ok? ==> !r.value.changed && r.value.lb == old(observed.lbID)
                            && VIPs.Healthy(c.net, r.value.lb, r.value.subnet, req.strictVIP, observed.vipID)
                            && VIPs.AddressNow(c.net, observed.vipID, observed.vipAddress) == observed.vipAddress)
              && (old(c.faults) == 0 && old(PlacementKnown(c.net, req, observed.lbID)) ==> r.Ok?)
    ensures r.Ok? ==>
              && observed.lbID == r.value.lb && observed.graph == WithParent(old(observed.Mirrored()), req.stack, r.value.lb)
              && HasParent(c.naming, old(c.net), c.net, c.actor, req, s, old(observed.Mirrored()), observed.graph, r.value.lb, r.value.subnet,
                           observed.vipID, observed.vsID)
              && r.value.lb in c.net.issued
              && (old(Orderly(c.net, observed.Mirrored(), req.stack, observed.vsID)) ==>
                    Orderly(c.net, observed.graph, req.stack, observed.vsID))
              && Near(c.net, observed.graph, req.stack, observed.vsID) <= old(Near(c.net, observed.Mirrored(), req.stack, observed.vsID))
  {
    hide Near, Inv, Run, Span, WellFormed, Vouched, OwnParents, Anchored, OwnName, Orderly, NamesLater, Prepared, Publishable, Holds, Begins,
      Recovery.Names, LBRests, SubnetOf, PatchedOnly, VIPs.Healthy, VIPs.AddressNow, AsksFor, MendsVIPs, ReachesVIP, Observed.Mirror,
      PlacementKnown, ParentsRest, Lasting, StillThere, MakesNoLB, MakesNoVIP, StandsAsAsked;
    ghost var n0, given := c.net, observed.Mirrored();
    BeginsSays(c.naming, n0, c.actor, req, observed.graph, observed.lbID, observed.vipID, observed.vsID);
    RestingLB(n0, req, observed.lbID, observed.vipID, observed.vipAddress);
    r := EnsureParents(c, observed, req);
    if c.quiet && LBRests(n0, req, old(observed.lbID)) {
      ParentsStillRest(n0, old(c.log), c.net, c.log, req, old(observed.lbID), old(observed.vipID), old(observed.vipAddress));
    }
    if r.Err? {
      return;
    }
    var lb := r.value.lb;
    InvIsWellFormed(c.naming, c.net);
    ParentPrepares(n0, c.net, given, observed.graph, req.stack, lb, observed.vsID);
    HeldIsPublishable(c.naming, c.net, c.actor, req, s, observed.graph, lb, observed.vipID, observed.vsID);
    SameNamespace(n0, c.net);
    HeldMends(c.naming, n0, c.net, c.actor, req, old(observed.graph), observed.graph, old(observed.lbID), old(observed.vipID), old(observed.vsID), lb);
  }

  lemma SameNamespace(n: Net, m: Net)
    requires NamesLater(n, m)
    ensures m.namespace == n.namespace
  {
  }

  lemma BeginsSays(nm: Naming, n: Net, actor: string, req: Request, graph: Graph, lbID: Id, vipID: Id, vsID: Id)
    requires Begins(nm, n, actor, req, graph, lbID, vipID, vsID)
    ensures actor in n.services && var s := n.services[actor];
            && (vsID != NO_ID ==> vsID == s.vsID) && (Provided(s.vipMode, s.vipID) ==> req.strictVIP && vipID == s.vipID != NO_ID)
            && (s.vipID != NO_ID ==> vipID == s.vipID) && (s.vipID == NO_ID && vipID != NO_ID ==> s.lbID == NO_ID)
    ensures forall i | 0 <= i < |req.stack.virtualServers| ::
              req.stack.virtualServers[i].name != "" && OwnName(nm, actor, req.stack.virtualServers[i].name)
  {
    hide OwnedBy, RecordedListeners, KeysFollowOwner, OwnName, StrictLB, Reaches;
  }

  lemma PublishableSays(nm: Naming, n: Net, actor: string, s: Service, req: Request, g: Graph, lb: Id, vip: Id, vsID: Id)
    requires Publishable(nm, n, actor, s, req, g, lb, vip, vsID)
    ensures Anchored(nm, n, actor, lb) && actor in n.services && Vouched(nm, n, actor, lb, KnownIDs(g, vsID))
    ensures n.services[actor].vipMode == s.vipMode && n.services[actor].vipID == s.vipID && n.services[actor].uid == s.uid
  {
    hide Vouched, OwnParents, Anchored;
    AnchoredSays(nm, n, actor, lb);
  }

  lemma OnlyKeepsNames(actor: string, n0: Net, n1: Net, l1: seq<Event>, n: Net, l: seq<Event>)
    requires NamesLater(n0, n1) && Span(actor, n1, l1, [], n, l)
    ensures NamesLater(n0, n)
  {
    hide Span, NamesLater;
    SpanKeepsNames(actor, n1, l1, [], n, l);
    NamesLaterChains(n0, n1, n);
  }

  lemma OnlyKeepsIssued(actor: string, n0: Net, l0: seq<Event>, n: Net, l: seq<Event>, lb: Id)
    requires Span(actor, n0, l0, [], n, l) && lb in n0.issued
    ensures lb in n.issued
  {
    hide Span;
    SpanKeepsNames(actor, n0, l0, [], n, l);
  }

  // ----- The deletions after the loop -----

  /** Every listener's children are as desired. `k0` and `g0` are the provider and the graph before the loop. */
  ghost predicate AllDone(k0: Kid.Kids, g0: Graph, k: Kid.Kids, g: Graph, ids: seq<Id>, req: Request) {
    && |ids| == |req.stack.virtualServers| && Convergence.DefaultsKept(k0, k, ids, req.stack)
    && forall j | 0 <= j < |ids| ::
         LC.ListenerDone(Rules.ViewOf(k0, ids[j]), LC.OwnedRules(g0.routingRules, req.stack.virtualServers[j].name), k, g, ids[j],
                         req.stack.virtualServers[j], req.stack, req.resolve)
  }

  lemma PoolDeletionSparesRecord(g: Graph, gone: set<string>, vs: string, pools: seq<Pool>)
    requires forall i | 0 <= i < |pools| :: PoolKeyOf(vs, pools[i].name) !in gone
    ensures Convergence.SameListenerRecord(g, Obsolete.WithoutPools(g, gone), vs, pools)
  {
    hide VSName, PoolKey, PoolKeyOf;
  }

  lemma DesiredKeyIsNotGone(g: Graph, stack: Stack, j: nat, i: nat)
    requires j < |stack.virtualServers| && i < |LC.PoolsFor(stack, stack.virtualServers[j])|
    ensures var key := PoolKeyOf(stack.virtualServers[j].name, LC.PoolsFor(stack, stack.virtualServers[j])[i].name);
            key in Obsolete.DesiredPoolKeys(stack) && key !in Obsolete.ObsoletePools(g, Obsolete.DesiredPoolKeys(stack))
  {
    hide LC.PoolsFor, PoolKeyOf;
    assert PoolKeyOf(stack.virtualServers[j].name, LC.PoolsFor(stack, stack.virtualServers[j])[i].name)
           in LC.KeysOf(stack.virtualServers[j].name, LC.PoolsFor(stack, stack.virtualServers[j]));
  }

  lemma DoneHasIDs(before: Rules.View, owned: set<Id>, k: Kid.Kids, g: Graph, id: Id, vs: VirtualServer, stack: Stack, resolve: LC.Resolver)
    requires LC.ListenerDone(before, owned, k, g, id, vs, stack, resolve)
    ensures forall i | 0 <= i < |LC.PoolsFor(stack, vs)| ::
              var key := PoolKeyOf(vs.name, LC.PoolsFor(stack, vs)[i].name); key in g.pools && g.pools[key].externalID != NO_ID
  {
    hide PoolKeyOf, LC.MembersDone, LC.MonitorDone, LC.RoutesDone, LC.AllServed, LC.PoolsFor, LC.SpecsOf;
    forall i | 0 <= i < |LC.PoolsFor(stack, vs)|
      ensures var key := PoolKeyOf(vs.name, LC.PoolsFor(stack, vs)[i].name); key in g.pools && g.pools[key].externalID != NO_ID
    {
      assert LC.PoolDone(k, g, id, vs, LC.PoolsFor(stack, vs)[i], LC.SpecsOf(resolve, LC.PoolsFor(stack, vs)[i].members).value);
    }
  }

  lemma PoolDeletionKeepsDone(k0: Kid.Kids, g0: Graph, k: Kid.Kids, m: Kid.Kids, g: Graph, ids: seq<Id>, req: Request)
    requires AllDone(k0, g0, k, g, ids, req) && Convergence.StackFits(req.stack, req.resolve) && LC.PoolIDsApart(g, k.issued)
    requires Obsolete.OnlyDeletes(k, m, Obsolete.PoolIDs(g, Obsolete.ObsoletePools(g, Obsolete.DesiredPoolKeys(req.stack))), {})
    ensures AllDone(k0, g0, m, Obsolete.WithoutPools(g, Obsolete.ObsoletePools(g, Obsolete.DesiredPoolKeys(req.stack))), ids, req)
  {
    hide Obsolete.OnlyDeletes, LC.ListenerDone, LC.PoolsFor, PoolKeyOf, Rules.ViewOf, LC.OwnedRules, Obsolete.WithoutPools, LC.Workable,
      Obsolete.DesiredPoolKeys, Convergence.SameListenerRecord, Convergence.DefaultsKept;
    var gone := Obsolete.ObsoletePools(g, Obsolete.DesiredPoolKeys(req.stack));
    var h := Obsolete.WithoutPools(g, gone);
    Convergence.DeletesKeepDefaults(k0, k, m, Obsolete.PoolIDs(g, gone), {}, ids, req.stack);
    forall j | 0 <= j < |ids|
      ensures LC.ListenerDone(Rules.ViewOf(k0, ids[j]), LC.OwnedRules(g0.routingRules, req.stack.virtualServers[j].name), m, h, ids[j],
                              req.stack.virtualServers[j], req.stack, req.resolve)
    {
      var vs := req.stack.virtualServers[j];
      var before, owned := Rules.ViewOf(k0, ids[j]), LC.OwnedRules(g0.routingRules, vs.name);
      var pools := LC.PoolsFor(req.stack, vs);
      Convergence.FittingIsWorkable(req.stack, req.resolve, vs);
      DoneHasIDs(before, owned, k, g, ids[j], vs, req.stack, req.resolve);
      forall i | 0 <= i < |pools|
        ensures PoolKeyOf(vs.name, pools[i].name) !in gone
                && g.pools[PoolKeyOf(vs.name, pools[i].name)].externalID !in Obsolete.PoolIDs(g, gone)
      {
        DesiredKeyIsNotGone(g, req.stack, j, i);
      }
      PoolDeletionSparesRecord(g, gone, vs.name, pools);
      Convergence.ListenerDoneSurvives(before, owned, k, m, Obsolete.PoolIDs(g, gone), {}, g, h, ids[j], vs, req.stack, req.resolve);
    }
  }

  lemma ListenerDeletionSparesRecord(g: Graph, gone: set<string>, vs: string, pools: seq<Pool>)
    requires vs !in gone && '/' !in vs && forall i | 0 <= i < |pools| :: '/' !in pools[i].name
    ensures Convergence.SameListenerRecord(g, WithoutListeners(g, gone), vs, pools)
    ensures forall i | 0 <= i < |pools| :: VSName(PoolKeyOf(vs, pools[i].name)) == vs
  {
    hide VSName, PoolKey, PoolKeyOf;
    forall i | 0 <= i < |pools| ensures VSName(PoolKeyOf(vs, pools[i].name)) == vs {
      PoolKeyNames(vs, pools[i].name);
    }
  }

  lemma PoolKeyNames(vs: string, pool: string)
    requires '/' !in vs
    ensures VSName(PoolKeyOf(vs, pool)) == vs
  {
    VSNameReads(vs, pool);
  }

  lemma ListenerDeletionKeepsDone(k0: Kid.Kids, g0: Graph, k: Kid.Kids, m: Kid.Kids, g: Graph, ids: seq<Id>, req: Request, gone: set<string>)
    requires AllDone(k0, g0, k, g, ids, req) && Convergence.StackFits(req.stack, req.resolve) && LC.PoolIDsApart(g, k.issued)
    requires gone == ObsoleteListeners(g, Recovery.Names(req.stack.virtualServers))
    requires forall j | 0 <= j < |ids| :: ids[j] !in ListenerIDsAt(g, gone)
    requires Obsolete.OnlyDeletes(k, m, PoolIDsUnder(g, gone), RuleIDsUnder(g, gone))
    ensures AllDone(k0, g0, m, WithoutListeners(g, gone), ids, req)
  {
    hide Obsolete.OnlyDeletes, LC.ListenerDone, LC.PoolsFor, PoolKeyOf, Rules.ViewOf, LC.OwnedRules, WithoutListeners, LC.Workable,
      Convergence.SameListenerRecord, VSName, Convergence.DefaultsKept;
    var h := WithoutListeners(g, gone);
    Convergence.DeletesKeepDefaults(k0, k, m, PoolIDsUnder(g, gone), RuleIDsUnder(g, gone), ids, req.stack);
    forall j | 0 <= j < |ids|
      ensures LC.ListenerDone(Rules.ViewOf(k0, ids[j]), LC.OwnedRules(g0.routingRules, req.stack.virtualServers[j].name), m, h, ids[j],
                              req.stack.virtualServers[j], req.stack, req.resolve)
    {
      var vs := req.stack.virtualServers[j];
      var before, owned := Rules.ViewOf(k0, ids[j]), LC.OwnedRules(g0.routingRules, vs.name);
      var pools := LC.PoolsFor(req.stack, vs);
      Convergence.FittingIsWorkable(req.stack, req.resolve, vs);
      DoneHasIDs(before, owned, k, g, ids[j], vs, req.stack, req.resolve);
      assert vs.name !in gone;
      ListenerDeletionSparesRecord(g, gone, vs.name, pools);
      Convergence.ListenerDoneSurvives(before, owned, k, m, PoolIDsUnder(g, gone), RuleIDsUnder(g, gone), g, h, ids[j], vs, req.stack, req.resolve);
    }
  }

  // ----- Nothing else is touched -----

  lemma DeletionsSpareOthers(k0: Kid.Kids, g0: Graph, k: Kid.Kids, m: Kid.Kids, own: set<Id>, ownRules: set<(Id, Id)>)
    requires SparesOthers(k0, g0, k) && Obsolete.OnlyDeletes(k, m, own, ownRules)
    requires own * k0.issued <= Convergence.RecordedPoolIDs(g0) && forall r | r in ownRules :: r.0 in Convergence.RecordedRuleIDs(g0)
    requires Kid.WellFormedKids(k0)
    ensures SparesOthers(k0, g0, m)
  {
    hide Convergence.RecordedPoolIDs, Convergence.RecordedRuleIDs, Members.View, Monitors.ViewOf, Obsolete.OnlyDeletes;
    forall p | p in k0.pools && p !in Convergence.RecordedPoolIDs(g0)
      ensures p in m.pools && m.pools[p] == k0.pools[p] && Members.View(m, p) == Members.View(k0, p) && Monitors.ViewOf(m, p) == Monitors.ViewOf(k0, p)
    {
      Convergence.DeletesSparePool(k, m, own, ownRules, p);
    }
    DeletesSpareRule(k, m, own, ownRules);
  }

  lemma DeletesSpareRule(k: Kid.Kids, m: Kid.Kids, own: set<Id>, ownRules: set<(Id, Id)>)
    requires Obsolete.OnlyDeletes(k, m, own, ownRules)
    ensures k.issued <= m.issued
    ensures forall r | r in k.rules && (r, k.rules[r].listener) !in ownRules :: r in m.rules && m.rules[r] == k.rules[r]
  {
  }

  /** Outside the desired pools and listeners the loop has left the record alone. */
  ghost predicate LeavesOthers(g0: Graph, g: Graph, stack: Stack) {
    && (forall key | key in g.pools && key !in Obsolete.DesiredPoolKeys(stack) :: key in g0.pools && g.pools[key] == g0.pools[key])
    && Convergence.Elsewhere(g0, g, Recovery.Names(stack.virtualServers))
  }

  lemma LoopLeavesOthers(k0: Kid.Kids, g0: Graph, k: Kid.Kids, g: Graph, ids: seq<Id>, req: Request)
    requires if req.aggregate then g == g0.(virtualServers := g.virtualServers)
             else Convergence.ChildrenDone(k0, g0, k, g, ids, req.stack, req.resolve) && |ids| == |req.stack.virtualServers|
    ensures LeavesOthers(g0, g, req.stack)
  {
    hide VSName, PoolKey, LC.ListenerDone, Convergence.PoolKeysUpTo, Obsolete.DesiredPoolKeys, Convergence.Untouched,
      LC.PoolIDsApart, LC.OldOrNew, LC.StillKeyed, Kid.WellFormedKids;
    if !req.aggregate {
      assert req.stack.virtualServers[..|ids|] == req.stack.virtualServers;
      Closure.LoopKeysAre(req.stack);
    }
  }

  lemma ObsoletePoolsAreRecorded(g0: Graph, g: Graph, stack: Stack)
    requires LeavesOthers(g0, g, stack)
    ensures Obsolete.PoolIDs(g, Obsolete.ObsoletePools(g, Obsolete.DesiredPoolKeys(stack))) <= Convergence.RecordedPoolIDs(g0)
  {
    hide VSName, Obsolete.DesiredPoolKeys, Convergence.Elsewhere;
  }

  lemma ObsoleteTreesAreRecorded(g0: Graph, g: Graph, h: Graph, stack: Stack)
    requires LeavesOthers(g0, g, stack) && h.routingRules == g.routingRules && forall key | key in h.pools :: key in g.pools && h.pools[key] == g.pools[key]
    ensures var gone := ObsoleteListeners(h, Recovery.Names(stack.virtualServers));
            && PoolIDsUnder(h, gone) <= Convergence.RecordedPoolIDs(g0)
            && (forall r | r in RuleIDsUnder(h, gone) :: r.0 in Convergence.RecordedRuleIDs(g0))
  {
    hide VSName, Obsolete.DesiredPoolKeys;
  }

  /** The graph that the deletion of obsolete listeners starts from. */
  function BeforeListeners(g: Graph, req: Request): Graph {
    if req.aggregate then Dropped(g)
    else Obsolete.WithoutPools(Dropped(g), Obsolete.ObsoletePools(Dropped(g), Obsolete.DesiredPoolKeys(req.stack)))
  }

  /** The graph at the end, given the one after the listener loop. */
  function AfterDeletions(g: Graph, req: Request): Graph {
    var h := BeforeListeners(g, req);
    WithoutListeners(h, ObsoleteListeners(h, Recovery.Names(req.stack.virtualServers)))
  }

  lemma DroppedIsPublishable(nm: Naming, n: Net, actor: string, s: Service, req: Request, g: Graph, h: Graph, lb: Id, vip: Id, vsID: Id)
    requires Publishable(nm, n, actor, s, req, g, lb, vip, vsID) && nm.lb(actor) != Observed.LEGACY_LB
    requires h.lbServices == Observed.Drop(g.lbServices, Observed.LEGACY_LB)
    requires forall key | key in h.virtualServers :: key in g.virtualServers && h.virtualServers[key] == g.virtualServers[key]
    ensures Publishable(nm, n, actor, s, req, h, lb, vip, vsID)
  {
    hide Anchored, RecordedListeners, KnownListener, Observed.Drop;
    AnchoredSays(nm, n, actor, lb);
    Observed.DropKeepsIds(g.lbServices, Observed.LEGACY_LB);
    var e := EMPTY_GRAPH.(lbServices := g.lbServices);
    var k :| k in e.lbServices && e.lbServices[k].externalID == lb && OwnedBy(n.namespace, e.lbServices[k], actor, n.services[actor].uid);
    assert k in h.lbServices;
  }

  lemma DeletedEntriesOnly(g: Graph, req: Request)
    ensures var h := BeforeListeners(g, req);
            && h.routingRules == g.routingRules && h.lbServices == Observed.Drop(g.lbServices, Observed.LEGACY_LB)
            && h.virtualServers == Observed.Drop(g.virtualServers, Observed.LEGACY_VS)
            && (forall key | key in h.pools :: key in g.pools && h.pools[key] == g.pools[key])
            && (forall key | key in h.virtualServers :: key in g.virtualServers && h.virtualServers[key] == g.virtualServers[key])
    ensures AfterDeletions(g, req).lbServices == Observed.Drop(g.lbServices, Observed.LEGACY_LB)
    ensures AfterDeletions(g, req).vips == Observed.Drop(g.vips, Observed.LEGACY_VIP)
    ensures forall key | key in AfterDeletions(g, req).virtualServers ::
              key in g.virtualServers && AfterDeletions(g, req).virtualServers[key] == g.virtualServers[key]
  {
    hide VSName, PoolKey, Observed.Drop, Obsolete.DesiredPoolKeys;
    Observed.DropKeepsIds(g.virtualServers, Observed.LEGACY_VS);
  }

  lemma FewerPoolsApart(g: Graph, h: Graph, issued: set<Id>)
    requires LC.PoolIDsApart(g, issued) && forall key | key in h.pools :: key in g.pools && h.pools[key] == g.pools[key]
    ensures LC.PoolIDsApart(h, issued)
  {
  }

  lemma DeletionsKeepDistinct(k: Kid.Kids, m: Kid.Kids, near: iset<Id>, fewer: iset<Id>, own: set<Id>, ownRules: set<(Id, Id)>)
    requires Obsolete.OnlyDeletes(k, m, own, ownRules) && Convergence.KidsDistinct(k, near) && fewer <= near
    ensures Convergence.KidsDistinct(m, fewer) && m.issued == k.issued
  {
    hide Members.KeyOf;
    forall p | p in m.pools && m.pools[p].listener in fewer ensures Members.DistinctIn(m, p) {
      assert Members.DistinctIn(k, p);
    }
  }

  /** What a pass has achieved: every listener stands, under its own name and id; its children are as desired; and the
      next pass begins in order. */
  ghost predicate Finished(n: Net, k0: Kid.Kids, g0: Graph, k: Kid.Kids, g: Graph, lb: Id, vip: Id, req: Request, vsID: Id, ids: seq<Id>) {
    && |ids| == |req.stack.virtualServers| && Standing(n, g, lb, vip, req.stack, ids) && Ordered(n, k, g, req, vsID)
    && Hashed(g, req, |ids|)
    && (!req.aggregate ==> AllDone(k0, g0, k, g, ids, req))
  }

  lemma LoopFinishes(n: Net, k0: Kid.Kids, g0: Graph, k: Kid.Kids, g: Graph, lb: Id, vip: Id, req: Request, vsID: Id, ids: seq<Id>)
    requires LoopDone(n, k0, g0, k, g, lb, vip, req, vsID, ids) && |ids| == |req.stack.virtualServers| && Fit(req)
    ensures Finished(n, k0, g0, k, Dropped(g), lb, vip, req, vsID, ids)
    ensures forall j | 0 <= j < |ids| ::
              ids[j] !in ListenerIDsAt(Dropped(g), ObsoleteListeners(Dropped(g), Recovery.Names(req.stack.virtualServers)))
  {
    hide LC.ListenerDone, Standing, Convergence.KidsDistinct, Near, Rules.ViewOf, LC.OwnedRules, Kid.WellFormedKids, LC.OffPools,
      Convergence.Untouched, Convergence.Elsewhere, Convergence.PoolKeysUpTo, LC.OldOrNew, LC.StillKeyed, LC.Workable, Observed.Drop, Hashed;
    var h := Dropped(g);
    EnsuredAreNotObsolete(n, g, lb, vip, req.stack, vsID, ids);
    DroppedIsOrderly(n, g, req.stack, vsID);
    DroppedIsHashed(g, req);
    if !req.aggregate {
      DroppedNear(n, k, g, req, vsID);
      forall j | 0 <= j < |ids|
        ensures LC.ListenerDone(Rules.ViewOf(k0, ids[j]), LC.OwnedRules(g0.routingRules, req.stack.virtualServers[j].name), k, h, ids[j],
                                req.stack.virtualServers[j], req.stack, req.resolve)
      {
        SameChildRecord(Rules.ViewOf(k0, ids[j]), LC.OwnedRules(g0.routingRules, req.stack.virtualServers[j].name), k, g, h, ids[j],
                        req.stack.virtualServers[j], req.stack, req.resolve);
      }
    }
  }

  lemma DroppedNear(n: Net, k: Kid.Kids, g: Graph, req: Request, vsID: Id)
    requires Convergence.KidsDistinct(k, Near(n, g, req.stack, vsID))
    ensures Convergence.KidsDistinct(k, Near(n, Dropped(g), req.stack, vsID))
  {
    hide Observed.Drop, Convergence.KidsDistinct, Near;
    Observed.DropKeepsIds(g.virtualServers, Observed.LEGACY_VS);
    FewerNear(n, g, Dropped(g), req.stack, vsID);
    FewerDistinct(k, Near(n, g, req.stack, vsID), Near(n, Dropped(g), req.stack, vsID));
  }

  /** Fewer entries are in order as well, as long as those of the stack stay. */
  lemma FewerAreOrderly(n: Net, g: Graph, h: Graph, stack: Stack, vsID: Id)
    requires Orderly(n, g, stack, vsID)
    requires forall key | key in h.virtualServers :: key in g.virtualServers && h.virtualServers[key] == g.virtualServers[key]
    requires forall key | key in g.virtualServers && key in Recovery.Names(stack.virtualServers) :: key in h.virtualServers
    ensures Orderly(n, h, stack, vsID)
  {
    assert |stack.virtualServers| == 1 ==> stack.virtualServers[0].name in Recovery.Names(stack.virtualServers);
  }

  lemma FewerAreHashed(g: Graph, h: Graph, req: Request, n: nat)
    requires Hashed(g, req, n) && forall key | key in g.virtualServers && key in Recovery.Names(req.stack.virtualServers) ::
               key in h.virtualServers && h.virtualServers[key] == g.virtualServers[key]
    ensures Hashed(h, req, n)
  {
    hide HashOf;
    forall j | 0 <= j < |req.stack.virtualServers| ensures req.stack.virtualServers[j].name in Recovery.Names(req.stack.virtualServers) {}
  }

  lemma DroppedIsHashed(g: Graph, req: Request)
    requires Convergence.NamesFit(req.stack.virtualServers)
    ensures forall n :: Hashed(g, req, n) ==> Hashed(Dropped(g), req, n)
  {
    hide Observed.Drop, Hashed;
    assert Observed.LEGACY_VS[6] == '/';
    Observed.DropKeepsIds(g.virtualServers, Observed.LEGACY_VS);
    forall n | Hashed(g, req, n) ensures Hashed(Dropped(g), req, n) {
      FewerAreHashed(g, Dropped(g), req, n);
    }
  }

  lemma DroppedIsOrderly(n: Net, g: Graph, stack: Stack, vsID: Id)
    requires Orderly(n, g, stack, vsID) && Convergence.NamesFit(stack.virtualServers)
    ensures Orderly(n, Dropped(g), stack, vsID)
  {
    hide Observed.Drop, Orderly;
    assert Observed.LEGACY_VS[6] == '/';
    Observed.DropKeepsIds(g.virtualServers, Observed.LEGACY_VS);
    FewerAreOrderly(n, g, Dropped(g), stack, vsID);
  }

  lemma PoolDeletionFinishes(n: Net, k0: Kid.Kids, g0: Graph, k: Kid.Kids, m: Kid.Kids, g: Graph, lb: Id, vip: Id, req: Request, vsID: Id,
                             ids: seq<Id>)
    requires Finished(n, k0, g0, k, g, lb, vip, req, vsID, ids) && !req.aggregate
    requires Obsolete.OnlyDeletes(k, m, Obsolete.PoolIDs(g, Obsolete.ObsoletePools(g, Obsolete.DesiredPoolKeys(req.stack))), {})
    ensures Finished(n, k0, g0, m, Obsolete.WithoutPools(g, Obsolete.ObsoletePools(g, Obsolete.DesiredPoolKeys(req.stack))), lb, vip, req, vsID, ids)
  {
    hide Stands, AllDone, Obsolete.OnlyDeletes, Convergence.KidsDistinct, LC.Workable, PoolKey, Obsolete.DesiredPoolKeys, Obsolete.PoolIDs,
      Convergence.NamesFit, LC.PoolIDsApart, Orderly, Hashed, Near;
    var gone := Obsolete.ObsoletePools(g, Obsolete.DesiredPoolKeys(req.stack));
    var h := Obsolete.WithoutPools(g, gone);
    PoolDeletionKeepsDone(k0, g0, k, m, g, ids, req);
    FewerNear(n, g, h, req.stack, vsID);
    DeletionsKeepDistinct(k, m, Near(n, g, req.stack, vsID), Near(n, h, req.stack, vsID), Obsolete.PoolIDs(g, gone), {});
    FewerPoolsApart(g, h, k.issued);
    FewerAreOrderly(n, g, h, req.stack, vsID);
    FewerAreHashed(g, h, req, |ids|);
  }

  lemma ListenerDeletionFinishes(actor: string, n0: Net, l0: seq<Event>, calls: seq<Call>, n: Net, l: seq<Event>, k0: Kid.Kids, g0: Graph,
                                 k: Kid.Kids, m: Kid.Kids, g: Graph, lb: Id, vip: Id, req: Request, vsID: Id, ids: seq<Id>)
    requires WellFormed(n0) && WellFormed(n) && Span(actor, n0, l0, calls, n, l) && Finished(n0, k0, g0, k, g, lb, vip, req, vsID, ids)
    requires var gone := ObsoleteListeners(g, Recovery.Names(req.stack.virtualServers));
             && DeletedBy(calls) <= ListenerIDsAt(g, gone) && (forall j | 0 <= j < |ids| :: ids[j] !in ListenerIDsAt(g, gone))
             && Obsolete.OnlyDeletes(k, m, PoolIDsUnder(g, gone), RuleIDsUnder(g, gone))
    ensures Finished(n, k0, g0, m, WithoutListeners(g, ObsoleteListeners(g, Recovery.Names(req.stack.virtualServers))), lb, vip, req, vsID, ids)
  {
    hide Stands, AllDone, Obsolete.OnlyDeletes, Convergence.KidsDistinct, LC.Workable, PoolKey, VSName, Orderly,
      Convergence.NamesFit, LC.PoolIDsApart, Span, WellFormed, DeletedBy, ListenerIDsAt, PoolIDsUnder, RuleIDsUnder, NamesLater, Hashed, Near;
    var gone := ObsoleteListeners(g, Recovery.Names(req.stack.virtualServers));
    var h := WithoutListeners(g, gone);
    StandingStays(actor, n0, l0, calls, n, l, g, lb, vip, req.stack, ids);
    SpanKeepsNames(actor, n0, l0, calls, n, l);
    NoEmptyListener(n);
    OrderlyLater(n0, n, g, g, req.stack, vsID);
    FewerAreOrderly(n, g, h, req.stack, vsID);
    StandingKeepsNames(n, g, h, lb, vip, req.stack, ids);
    FewerAreHashed(g, h, req, |ids|);
    if !req.aggregate {
      ListenerDeletionKeepsDone(k0, g0, k, m, g, ids, req, gone);
      NearLater(n0, n, g, h, req.stack, vsID);
      DeletionsKeepDistinct(k, m, Near(n0, g, req.stack, vsID), Near(n, h, req.stack, vsID), PoolIDsUnder(g, gone), RuleIDsUnder(g, gone));
      FewerPoolsApart(g, h, k.issued);
    }
  }

  lemma StandingKeepsNames(n: Net, g: Graph, h: Graph, lb: Id, vip: Id, stack: Stack, ids: seq<Id>)
    requires Standing(n, g, lb, vip, stack, ids)
    requires forall key | key in g.virtualServers && key in Recovery.Names(stack.virtualServers) ::
               key in h.virtualServers && h.virtualServers[key] == g.virtualServers[key]
    ensures Standing(n, h, lb, vip, stack, ids)
  {
    hide Stands;
    forall j | 0 <= j < |ids| ensures stack.virtualServers[j].name in Recovery.Names(stack.virtualServers) {}
  }

  predicate NothingObsolete(g: Graph, req: Request) {
    && ObsoleteListeners(g, Recovery.Names(req.stack.virtualServers)) == {}
    && (!req.aggregate ==> Obsolete.ObsoletePools(g, Obsolete.DesiredPoolKeys(req.stack)) == {})
  }

  /** Aliases are dropped, then obsolete pools and listeners are deleted. `k0` and `g0` are the provider's pools and rules and
      the graph before the listener loop; `hyp` says that the pass began in order. */
  method DeleteObsolete(c: Client, k: Kid.ChildClient, observed: Observed.State, req: Request, lb: Id, ghost s: Service,
                        ghost k0: Kid.Kids, ghost g0: Graph, ghost ids: seq<Id>, ghost hyp: bool)
    returns (err: Option<Stop>, changed: bool, ghost calls: seq<Call>)
    requires c.Valid() && k.Valid() && Kid.WellFormedKids(k0) && c.naming.lb(c.actor) != Observed.LEGACY_LB
    requires Publishable(c.naming, c.net, c.actor, s, req, observed.graph, lb, observed.vipID, observed.vsID)
    requires LeavesOthers(g0, observed.graph, req.stack) && SparesOthers(k0, g0, k.kids) && (!req.aggregate ==> hyp)
    requires hyp ==> Fit(req) && |ids| == |req.stack.virtualServers|
                     && LoopDone(c.net, k0, g0, k.kids, observed.graph, lb, observed.vipID, req, observed.vsID, ids)
    modifies c, k, observed`graph
    ensures c.Valid() && k.Valid() && c.faults <= old(c.faults) && k.faults <= old(k.faults)
    ensures Span(c.actor, old(c.net), old(c.log), calls, c.net, c.log) && SparesOthers(k0, g0, k.kids)
    ensures forall i | 0 <= i < |calls| :: calls[i].DeleteListener?
    ensures NothingObsolete(Dropped(old(observed.graph)), req) ==>
              err.None? && !changed && calls == [] && c.net == old(c.net) && k.kids == old(k.kids) && k.calls == old(k.calls)
    ensures err.None? && ObsoleteListeners(Dropped(old(observed.graph)), Recovery.Names(req.stack.virtualServers)) != {} ==> changed
    ensures err.None? ==>
              && observed.graph == AfterDeletions(old(observed.graph), req)
              && Publishable(c.naming, c.net, c.actor, s, req, observed.graph, lb, observed.vipID, observed.vsID)
              && AllLeaving(c.net, lb, ListenerIDsAt(Dropped(old(observed.graph)),
                   ObsoleteListeners(Dropped(old(observed.graph)), Recovery.Names(req.stack.virtualServers))))
              && (hyp ==> Finished(c.net, k0, g0, k.kids, observed.graph, lb, observed.vipID, req, observed.vsID, ids))
              && (!req.aggregate ==> Obsolete.PoolsGone(k.kids, Dropped(old(observed.graph)),
                   Obsolete.ObsoletePools(Dropped(old(observed.graph)), Obsolete.DesiredPoolKeys(req.stack))))
  {
    hide Inv, Run, Span, WellFormed, Publishable, LeavesOthers, SparesOthers, LoopDone, Fit, Finished, AllLeaving, Obsolete.OnlyDeletes,
      Obsolete.PoolsGone, Obsolete.DesiredPoolKeys, Obsolete.PoolIDs, Obsolete.WithoutPools, WithoutListeners, ListenerIDsAt, PoolIDsUnder,
      RuleIDsUnder, Kid.WellFormedKids, Observed.Drop, DeletedBy, Obsolete.ObsoletePools, ObsoleteListeners, Recovery.Names;
    ghost var n1, l1, k1, g1 := c.net, c.log, k.kids, observed.graph;
    err, changed, calls := None, false, [];
    InvIsWellFormed(c.naming, n1);
    SpanNothing(c.actor, n1, l1);
    observed.DropMigratedLegacyAliases();
    ghost var g2 := observed.graph;
    assert g2 == Dropped(g1);
    if hyp {
      LoopFinishes(n1, k0, g0, k1, g1, lb, observed.vipID, req, observed.vsID, ids);
    }
    LeavesOthersDropped(g0, g1, req.stack);
    PublishableSays(c.naming, n1, c.actor, s, req, g1, lb, observed.vipID, observed.vsID);
    AnchoredSays(c.naming, n1, c.actor, lb);
    if !req.aggregate {
      var h, changed0, failure := Obsolete.DeleteObsoletePools(k, observed.graph, lb, req.stack);
      ObsoletePoolsAreRecorded(g0, g2, req.stack);
      DeletionsSpareOthers(k0, g0, k1, k.kids, Obsolete.PoolIDs(g2, Obsolete.ObsoletePools(g2, Obsolete.DesiredPoolKeys(req.stack))), {});
      if failure.Some? {
        err := Some(ChildFailing(failure.value));
        return;
      }
      PoolDeletionFinishes(n1, k0, g0, k1, k.kids, g2, lb, observed.vipID, req, observed.vsID, ids);
      observed.graph := h;
      changed := changed0;
    }
    ghost var k3, g3 := k.kids, observed.graph;
    assert g3 == BeforeListeners(g1, req);
    DeletedEntriesOnly(g1, req);
    SameListenersObsolete(g2, g3, Recovery.Names(req.stack.virtualServers));
    DroppedIsPublishable(c.naming, n1, c.actor, s, req, g1, g3, lb, observed.vipID, observed.vsID);
    PublishableSays(c.naming, n1, c.actor, s, req, g3, lb, observed.vipID, observed.vsID);
    FewerKnown(c.naming, n1, c.actor, lb, g3, observed.vsID);
    var h, changed1;
    h, changed1, err, calls := DeleteObsoleteVirtualServers(c, k, observed.graph, lb, req.stack);
    ObsoleteTreesAreRecorded(g0, g1, g3, req.stack);
    DeletionsSpareOthers(k0, g0, k3, k.kids, PoolIDsUnder(g3, ObsoleteListeners(g3, Recovery.Names(req.stack.virtualServers))),
                         RuleIDsUnder(g3, ObsoleteListeners(g3, Recovery.Names(req.stack.virtualServers))));
    if err.Some? {
      return;
    }
    observed.graph := h;
    changed := changed || changed1;
    InvIsWellFormed(c.naming, c.net);
    PublishableStays(c.naming, c.actor, n1, l1, calls, c.net, c.log, s, req, g1, lb, observed.vipID, observed.vsID);
    DroppedIsPublishable(c.naming, c.net, c.actor, s, req, g1, h, lb, observed.vipID, observed.vsID);
    if hyp {
      ListenerDeletionFinishes(c.actor, n1, l1, calls, c.net, c.log, k0, g0, k3, k.kids, g3, lb, observed.vipID, req, observed.vsID, ids);
    }
    if !req.aggregate {
      PoolsStayGone(k3, k.kids, g2, g3, Obsolete.ObsoletePools(g2, Obsolete.DesiredPoolKeys(req.stack)),
                    ObsoleteListeners(g3, Recovery.Names(req.stack.virtualServers)));
    }
  }

  lemma LeavesOthersDropped(g0: Graph, g: Graph, stack: Stack)
    requires LeavesOthers(g0, g, stack)
    ensures LeavesOthers(g0, Dropped(g), stack)
  {
    hide VSName, Obsolete.DesiredPoolKeys, Observed.Drop;
  }

  lemma SameListenersObsolete(g: Graph, h: Graph, names: set<string>)
    requires h.virtualServers == g.virtualServers
    ensures ObsoleteListeners(h, names) == ObsoleteListeners(g, names)
    ensures ListenerIDsAt(h, ObsoleteListeners(g, names)) == ListenerIDsAt(g, ObsoleteListeners(g, names))
  {
  }

  lemma PoolsStayGone(k: Kid.Kids, m: Kid.Kids, g: Graph, h: Graph, keys: set<string>, gone: set<string>)
    requires Obsolete.PoolsGone(k, g, keys) && Obsolete.OnlyDeletes(k, m, PoolIDsUnder(h, gone), RuleIDsUnder(h, gone))
    ensures Obsolete.PoolsGone(m, g, keys)
  {
    hide VSIDFor, Obsolete.PoolsGone, PoolIDsUnder, RuleIDsUnder;
    Obsolete.ShrinksOf(k, m, PoolIDsUnder(h, gone), RuleIDsUnder(h, gone));
    Obsolete.GoneStays(k, m, g, keys);
  }

  // ----- The pass as a whole -----

  lemma StackListenersKeepTheirs(n: Net, given: Graph, g: Graph, lb: Id, vip: Id, stack: Stack, ids: seq<Id>, key: string)
    requires WellFormed(n) && Unique(n) && NamesMatch(n, given) && Standing(n, g, lb, vip, stack, ids) && |ids| == |stack.virtualServers|
    requires key in given.virtualServers && key in Recovery.Names(stack.virtualServers) && key != Observed.LEGACY_VS
    ensures given.virtualServers[key].externalID in ids || Leaving(n, lb, given.virtualServers[key].externalID)
  {
    hide VirtualServers.OnFrontend;
    var id := given.virtualServers[key].externalID;
    var j :| 0 <= j < |ids| && stack.virtualServers[j].name == key;
    assert Stands(n, lb, vip, stack.virtualServers[j], ids[j]);
    if id in n.listeners && n.listeners[id].lb == lb {
      assert id == ids[j];
    }
  }

  /** Whatever listener was on record at the start is one of the stack's now, or on its way out. */
  ghost predicate ListenersSettled(n: Net, given: Graph, lb: Id, ids: seq<Id>) {
    forall id | id in Observed.Ids(given.virtualServers) :: id in ids || Leaving(n, lb, id)
  }

  lemma RecordedListenersSettle(n: Net, given: Graph, before: Graph, g: Graph, h: Graph, lb: Id, vip: Id, stack: Stack, ids: seq<Id>)
    requires WellFormed(n) && Unique(n) && NamesMatch(n, given) && Convergence.NamesFit(stack.virtualServers)
    requires Prepared(given, before, Recovery.Names(stack.virtualServers))
    requires RecordsNames(before.virtualServers, g.virtualServers, Recovery.Names(stack.virtualServers))
    requires Standing(n, h, lb, vip, stack, ids) && |ids| == |stack.virtualServers|
    requires forall key | key in h.virtualServers :: key in Dropped(g).virtualServers && h.virtualServers[key] == Dropped(g).virtualServers[key]
    requires AllLeaving(n, lb, ListenerIDsAt(Dropped(g), ObsoleteListeners(Dropped(g), Recovery.Names(stack.virtualServers))))
    ensures ListenersSettled(n, given, lb, ids)
  {
    hide Stands, Leaving, Observed.Drop, WellFormed, Unique, NamesMatch;
    assert Observed.LEGACY_VS[6] == '/';
    var names := Recovery.Names(stack.virtualServers);
    Observed.DropKeepsIds(g.virtualServers, Observed.LEGACY_VS);
    forall id | id in Observed.Ids(given.virtualServers) ensures id in ids || Leaving(n, lb, id) {
      var key :| key in given.virtualServers && given.virtualServers[key].externalID == id;
      if key in names {
        StackListenersKeepTheirs(n, given, h, lb, vip, stack, ids, key);
      } else {
        assert g.virtualServers[key] == given.virtualServers[key];
        assert id in Observed.Ids(Dropped(g).virtualServers);
        var now :| now in Dropped(g).virtualServers && Dropped(g).virtualServers[now].externalID == id;
        if now in names {
          var j :| 0 <= j < |ids| && stack.virtualServers[j].name == now;
          assert ids[j] == id;
        } else {
          assert now in ObsoleteListeners(Dropped(g), names);
        }
      }
    }
  }

  /** Pools on record at the start that the stack does not ask for are not left under their listener. */
  ghost predicate PoolsSettled(k: Kid.Kids, given: Graph, g: Graph, stack: Stack) {
    forall key | key in given.pools && key !in Obsolete.DesiredPoolKeys(stack) && given.pools[key].externalID != NO_ID ::
      !Kid.PoolAt(k, IDAt(given.virtualServers + g.virtualServers, VSName(key)), given.pools[key].externalID)
  }

  lemma RecordedPoolsSettle(k0: Kid.Kids, k1: Kid.Kids, k: Kid.Kids, given: Graph, before: Graph, g: Graph, h: Graph, req: Request, ids: seq<Id>)
    requires !req.aggregate && Prepared(given, before, Recovery.Names(req.stack.virtualServers))
    requires RecordsNames(before.virtualServers, g.virtualServers, Recovery.Names(req.stack.virtualServers))
    requires Convergence.ChildrenDone(k0, before, k1, g, ids, req.stack, req.resolve) && |ids| == |req.stack.virtualServers|
    requires h == AfterDeletions(g, req) && Recovery.Names(req.stack.virtualServers) <= h.virtualServers.Keys
    requires Obsolete.PoolsGone(k, Dropped(g), Obsolete.ObsoletePools(Dropped(g), Obsolete.DesiredPoolKeys(req.stack)))
    ensures PoolsSettled(k, given, h, req.stack)
  {
    hide VSName, PoolKey, LC.ListenerDone, Convergence.PoolKeysUpTo, Obsolete.DesiredPoolKeys, Convergence.Untouched,
      LC.PoolIDsApart, LC.OldOrNew, LC.StillKeyed, Kid.WellFormedKids, Observed.Drop, AfterDeletions,
      Convergence.Elsewhere;
    assert req.stack.virtualServers[..|ids|] == req.stack.virtualServers;
    Closure.LoopKeysAre(req.stack);
    DeletedEntriesOnly(g, req);
    Observed.DropKeepsIds(g.virtualServers, Observed.LEGACY_VS);
    forall key | key in given.pools && key !in Obsolete.DesiredPoolKeys(req.stack) && given.pools[key].externalID != NO_ID
      ensures !Kid.PoolAt(k, IDAt(given.virtualServers + h.virtualServers, VSName(key)), given.pools[key].externalID)
    {
      assert key in g.pools && g.pools[key] == given.pools[key];
      Closure.SlashlessIsNoAlias(key);
      SameParent(given, before, g, h, req, VSName(key));
    }
  }

  lemma SameParent(given: Graph, before: Graph, g: Graph, h: Graph, req: Request, name: string)
    requires Prepared(given, before, Recovery.Names(req.stack.virtualServers)) && name != Observed.LEGACY_VS
    requires RecordsNames(before.virtualServers, g.virtualServers, Recovery.Names(req.stack.virtualServers))
    requires forall key | key in h.virtualServers :: key in g.virtualServers && h.virtualServers[key] == g.virtualServers[key]
    requires Recovery.Names(req.stack.virtualServers) <= h.virtualServers.Keys
    ensures IDAt(given.virtualServers + h.virtualServers, name) == IDAt(Dropped(g).virtualServers, name)
  {
    hide Observed.Drop;
    Observed.DropKeepsIds(g.virtualServers, Observed.LEGACY_VS);
  }

  lemma PreparingKeepsClosed(given: Graph, before: Graph, names: set<string>)
    requires Closed(given) && Prepared(given, before, names)
    ensures Closed(before)
  {
    hide VSName, PoolKey;
  }

  lemma AggregateLoopKeepsClosed(g0: Graph, g: Graph, names: set<string>)
    requires Closed(g0) && g == g0.(virtualServers := g.virtualServers) && RecordsNames(g0.virtualServers, g.virtualServers, names)
    ensures Closed(g)
  {
    hide VSName, PoolKey;
  }

  lemma DeletionsKeepClosed(g: Graph, req: Request)
    requires Closed(g)
    ensures Closed(Dropped(g)) && Closed(BeforeListeners(g, req)) && Closed(AfterDeletions(g, req))
  {
    hide VSName, PoolKey, Obsolete.WithoutPools, WithoutListeners, Dropped, Obsolete.ObsoletePools, ObsoleteListeners,
      Obsolete.DesiredPoolKeys, Closed;
    Closure.DropKeepsClosed(g);
    var h := Dropped(g);
    Closure.WithoutPoolsKeepsClosed(h, Obsolete.ObsoletePools(h, Obsolete.DesiredPoolKeys(req.stack)));
    var b := BeforeListeners(g, req);
    Closure.WithoutListenersKeepsClosed(b, ObsoleteListeners(b, Recovery.Names(req.stack.virtualServers)));
  }

  /** The record has exactly the stack's listeners, and after a full pass exactly its pools. */
  predicate ExactKeys(g: Graph, req: Request) {
    && g.virtualServers.Keys == Recovery.Names(req.stack.virtualServers)
    && (!req.aggregate ==> g.pools.Keys == Obsolete.DesiredPoolKeys(req.stack))
  }

  lemma OnlyNamesStay(g: Graph, req: Request)
    requires Keyed(g.virtualServers) && Recovery.Names(req.stack.virtualServers) <= g.virtualServers.Keys
    requires Convergence.NamesFit(req.stack.virtualServers)
    ensures AfterDeletions(g, req).virtualServers.Keys == Recovery.Names(req.stack.virtualServers)
  {
    hide VSName, PoolKey, Observed.Drop, Obsolete.DesiredPoolKeys, Obsolete.ObsoletePools;
    assert Observed.LEGACY_VS[6] == '/';
    Observed.DropKeepsIds(g.virtualServers, Observed.LEGACY_VS);
  }

  lemma OnlyDesiredPoolsStay(g0: Graph, g: Graph, req: Request)
    requires Keyed(g.pools) && g.pools.Keys == g0.pools.Keys + Obsolete.DesiredPoolKeys(req.stack) && !req.aggregate
    requires Convergence.StackFits(req.stack, req.resolve)
    ensures AfterDeletions(g, req).pools.Keys == Obsolete.DesiredPoolKeys(req.stack)
  {
    hide VSName, PoolKey, Observed.Drop, Obsolete.DesiredPoolKeys, Convergence.StackFits;
    var b := BeforeListeners(g, req);
    var gone := ObsoleteListeners(b, Recovery.Names(req.stack.virtualServers));
    assert b.pools.Keys == Obsolete.DesiredPoolKeys(req.stack);
    forall key | key in Obsolete.DesiredPoolKeys(req.stack) ensures VSName(key) !in gone {
      var j, i := Closure.DesiredKeyReads(req.stack, req.resolve, key);
    }
  }

  /** After a full pass the record has a monitor's entry for exactly those desired pools that ask for one or had one on record. */
  ghost predicate ExactMonitors(given: Graph, g: Graph, req: Request) {
    !req.aggregate ==>
      forall key :: key in g.monitors <==>
        key in Obsolete.DesiredPoolKeys(req.stack) && (key in Obsolete.DesiredMonitorKeys(req.stack) || key in given.monitors)
  }

  lemma OnlyDesiredMonitorsStay(g0: Graph, g: Graph, req: Request)
    requires Closed(g) && g.pools.Keys == g0.pools.Keys + Obsolete.DesiredPoolKeys(req.stack) && !req.aggregate
    requires g.monitors.Keys == g0.monitors.Keys + Obsolete.DesiredMonitorKeys(req.stack) && Convergence.StackFits(req.stack, req.resolve)
    ensures ExactMonitors(g0, AfterDeletions(g, req), req)
  {
    hide VSName, PoolKey, Observed.Drop, Obsolete.DesiredPoolKeys, Obsolete.DesiredMonitorKeys, Convergence.StackFits;
    var b := BeforeListeners(g, req);
    var gone := ObsoleteListeners(b, Recovery.Names(req.stack.virtualServers));
    forall key | key in Obsolete.DesiredPoolKeys(req.stack) ensures VSName(key) !in gone {
      var j, i := Closure.DesiredKeyReads(req.stack, req.resolve, key);
    }
    forall key | key in g.monitors ensures key in b.monitors <==> key in Obsolete.DesiredPoolKeys(req.stack) {}
  }

  lemma PassKeepsClosed(k0: Kid.Kids, k: Kid.Kids, given: Graph, before: Graph, g: Graph, ids: seq<Id>, req: Request)
    requires Closed(given) && Prepared(given, before, Recovery.Names(req.stack.virtualServers)) && Fit(req)
    requires RecordsNames(before.virtualServers, g.virtualServers, Recovery.Names(req.stack.virtualServers))
    requires if req.aggregate then g == before.(virtualServers := g.virtualServers)
             else Convergence.ChildrenDone(k0, before, k, g, ids, req.stack, req.resolve) && |ids| == |req.stack.virtualServers|
    ensures Closed(AfterDeletions(g, req)) && ExactKeys(AfterDeletions(g, req), req) && ExactMonitors(given, AfterDeletions(g, req), req)
  {
    hide VSName, PoolKey, Prepared, AfterDeletions, Convergence.NamesFit, LC.Workable, Convergence.ChildrenDone, Obsolete.DesiredPoolKeys, Closed,
      ExactMonitors, Keyed, Obsolete.DesiredMonitorKeys, RecordsNames;
    PreparingKeepsClosed(given, before, Recovery.Names(req.stack.virtualServers));
    SameChildren(given, before, Recovery.Names(req.stack.virtualServers));
    if req.aggregate {
      AggregateLoopKeepsClosed(before, g, Recovery.Names(req.stack.virtualServers));
      assert ExactMonitors(given, AfterDeletions(g, req), req) by { NoMonitorsAsked(given, AfterDeletions(g, req), req); }
    } else {
      Closure.LoopKeepsClosed(k0, before, k, g, ids, req.stack, req.resolve);
      ClosedIsKeyed(g);
      OnlyDesiredPoolsStay(before, g, req);
      OnlyDesiredMonitorsStay(before, g, req);
      SameMonitors(given, before, AfterDeletions(g, req), req);
    }
    ClosedIsKeyed(g);
    NamesAreRecorded(before, g, req);
    OnlyNamesStay(g, req);
    DeletionsKeepClosed(g, req);
  }

  lemma ClosedIsKeyed(g: Graph)
    requires Closed(g)
    ensures Keyed(g.virtualServers) && Keyed(g.pools)
  {
    hide VSName, PoolKey, Keyed;
  }

  lemma NamesAreRecorded(before: Graph, g: Graph, req: Request)
    requires RecordsNames(before.virtualServers, g.virtualServers, Recovery.Names(req.stack.virtualServers))
    ensures Recovery.Names(req.stack.virtualServers) <= g.virtualServers.Keys
  {
  }

  lemma NoMonitorsAsked(given: Graph, g: Graph, req: Request)
    requires req.aggregate
    ensures ExactMonitors(given, g, req)
  {
  }

  lemma SameMonitors(given: Graph, before: Graph, g: Graph, req: Request)
    requires ExactMonitors(before, g, req) && before.monitors == given.monitors
    ensures ExactMonitors(given, g, req)
  {
    hide Obsolete.DesiredPoolKeys, Obsolete.DesiredMonitorKeys;
  }

  /** What a successful pass has achieved if it began in order: its listeners stand, their children are as desired, other
      recorded listeners and pools are gone or going, and a tree of keys is exactly the stack's tree. */
  ghost predicate Achieved(n: Net, k0: Kid.Kids, given: Graph, k: Kid.Kids, g: Graph, lb: Id, vip: Id, req: Request, vsID: Id, ids: seq<Id>) {
    && Finished(n, k0, given, k, g, lb, vip, req, vsID, ids) && ListenersSettled(n, given, lb, ids)
    && (!req.aggregate ==> PoolsSettled(k, given, g, req.stack))
    && (Closed(given) ==> Closed(g) && ExactKeys(g, req) && ExactMonitors(given, g, req))
  }

  lemma SameStartRules(n: Net, k0: Kid.Kids, given: Graph, before: Graph, k: Kid.Kids, g: Graph, lb: Id, vip: Id, req: Request, vsID: Id, ids: seq<Id>)
    requires Finished(n, k0, before, k, g, lb, vip, req, vsID, ids) && before.routingRules == given.routingRules
    ensures Finished(n, k0, given, k, g, lb, vip, req, vsID, ids)
  {
    hide Standing, Ordered, LC.ListenerDone, Rules.ViewOf, LC.OwnedRules;
  }

  lemma PassAchieves(nm: Naming, n0: Net, n: Net, k0: Kid.Kids, given: Graph, before: Graph, k1: Kid.Kids, g: Graph, k: Kid.Kids, h: Graph, lb: Id,
                     vip: Id, req: Request, vsID0: Id, vsID: Id, ids: seq<Id>)
    requires Inv(nm, n) && NamesLater(n0, n) && Orderly(n0, given, req.stack, vsID0) && Fit(req)
    requires Prepared(given, before, Recovery.Names(req.stack.virtualServers))
    requires RecordsNames(before.virtualServers, g.virtualServers, Recovery.Names(req.stack.virtualServers))
    requires if req.aggregate then g == before.(virtualServers := g.virtualServers)
             else Convergence.ChildrenDone(k0, before, k1, g, ids, req.stack, req.resolve)
    requires Finished(n, k0, before, k, h, lb, vip, req, vsID, ids) && h == AfterDeletions(g, req)
    requires AllLeaving(n, lb, ListenerIDsAt(Dropped(g), ObsoleteListeners(Dropped(g), Recovery.Names(req.stack.virtualServers))))
    requires !req.aggregate ==> Obsolete.PoolsGone(k, Dropped(g), Obsolete.ObsoletePools(Dropped(g), Obsolete.DesiredPoolKeys(req.stack)))
    ensures Achieved(n, k0, given, k, h, lb, vip, req, vsID, ids)
  {
    hide WellFormed, Unique, ServiceInv, MadeOnRecord, Prepared, RecordsNames, Convergence.ChildrenDone, AllDone, AfterDeletions,
      AllLeaving, Obsolete.PoolsGone, Standing, Observed.Drop, Obsolete.DesiredPoolKeys, Obsolete.ObsoletePools, ListenersSettled, PoolsSettled,
      LC.Workable, Convergence.KidsDistinct, LC.PoolIDsApart, Closed, ExactKeys, ExactMonitors, NamesLater, Convergence.NamesFit, Near;
    SameChildren(given, before, Recovery.Names(req.stack.virtualServers));
    SameStartRules(n, k0, given, before, k, h, lb, vip, req, vsID, ids);
    NoEmptyListener(n);
    OrderlyLater(n0, n, given, given, req.stack, vsID0);
    AfterIsDropped(g, req);
    RecordedListenersSettle(n, given, before, g, h, lb, vip, req.stack, ids);
    StandingNames(n, h, lb, vip, req.stack, ids);
    if !req.aggregate {
      RecordedPoolsSettle(k0, k1, k, given, before, g, h, req, ids);
    }
    if Closed(given) {
      PassKeepsClosed(k0, k1, given, before, g, ids, req);
    }
  }

  lemma SameChildren(given: Graph, before: Graph, names: set<string>)
    requires Prepared(given, before, names)
    ensures before.routingRules == given.routingRules && before.pools == given.pools && before.monitors == given.monitors
  {
  }

  lemma StandingNames(n: Net, g: Graph, lb: Id, vip: Id, stack: Stack, ids: seq<Id>)
    requires Standing(n, g, lb, vip, stack, ids) && |ids| == |stack.virtualServers|
    ensures Recovery.Names(stack.virtualServers) <= g.virtualServers.Keys
  {
    hide Stands;
  }

  lemma AfterIsDropped(g: Graph, req: Request)
    ensures forall key | key in AfterDeletions(g, req).virtualServers ::
              key in Dropped(g).virtualServers && AfterDeletions(g, req).virtualServers[key] == Dropped(g).virtualServers[key]
  {
    hide VSName, PoolKey, Observed.Drop, Obsolete.DesiredPoolKeys, Obsolete.ObsoletePools;
  }

  // ----- The keys of members and rules -----

  predicate PoolMemberKey(vs: string, pool: Pool, resolve: LC.Resolver, key: string) {
    LC.SpecsOf(resolve, pool.members).Some? && var specs := LC.SpecsOf(resolve, pool.members).value;
    exists x :: 0 <= x < |specs| && key == MemberKeyOf(vs, pool.name, Members.KeyOf(specs[x]))
  }

  predicate ListenerMemberKey(vs: string, pools: seq<Pool>, resolve: LC.Resolver, key: string) {
    exists i :: 0 <= i < |pools| && PoolMemberKey(vs, pools[i], resolve, key)
  }

  /** The key of some desired member, under its listener and pool. */
  predicate IsMemberKey(stack: Stack, resolve: LC.Resolver, key: string) {
    exists j :: 0 <= j < |stack.virtualServers|
                && ListenerMemberKey(stack.virtualServers[j].name, LC.PoolsFor(stack, stack.virtualServers[j]), resolve, key)
  }

  predicate ListenerRuleKey(g: Graph, vs: string, rules: seq<RoutingRule>, key: string) {
    exists i :: 0 <= i < |rules| && key == RuleKeyOf(vs, Rules.KeyOf(
      Kid.RuleSpec(rules[i].host, rules[i].path, rules[i].matchType, IDAt(g.pools, PoolKeyOf(vs, rules[i].poolName)))))
  }

  /** The key of some desired rule, under its listener. */
  predicate IsRuleKey(stack: Stack, g: Graph, key: string) {
    exists j :: 0 <= j < |stack.virtualServers| && ListenerRuleKey(g, stack.virtualServers[j].name, stack.routingRules, key)
  }

  /** No two desired rules have one key, and neither did two recorded ones before the pass. */
  ghost predicate DistinctRoutes(k0: Kid.Kids, given: Graph, g: Graph, req: Request, ids: seq<Id>) {
    forall j | 0 <= j < |ids| && j < |req.stack.virtualServers| :: var name := req.stack.virtualServers[j].name;
      && Rules.DistinctOwned(Rules.ViewOf(k0, ids[j]), LC.OwnedRules(given.routingRules, name), false)
      && forall desired | LC.DesiredFor(req.stack.routingRules, g, name, desired) :: Rules.DistinctSpecs(desired)
  }

  lemma DoneMemberKeys(k: Kid.Kids, g: Graph, id: Id, vs: string, pool: Pool, resolve: LC.Resolver)
    requires LC.SpecsOf(resolve, pool.members).Some? && LC.MembersDone(k, g, id, vs, pool, LC.SpecsOf(resolve, pool.members).value)
    ensures forall key | PoolMemberKey(vs, pool, resolve, key) :: key in g.members
    ensures forall key | key in g.members && PoolKey(key) == PoolKeyOf(vs, pool.name) :: PoolMemberKey(vs, pool, resolve, key)
  {
    hide PoolKey, PoolKeyOf, MemberKeyOf, Members.KeyOf, LC.SpecsOf, Members.NeedsUpdate;
    var specs := LC.SpecsOf(resolve, pool.members).value;
    var out: seq<Kid.MemberInfo> :| Members.Converged(Members.View(k, id), specs, out) && LC.MembersOnRecord(g.members, vs, pool, out);
    forall x | 0 <= x < |specs| ensures MemberKeyOf(vs, pool.name, Members.KeyOf(specs[x])) == LC.MemberKey(vs, pool.name, out[x]) {
      assert Members.Matches(out[x].spec, specs[x]);
    }
  }

  lemma DoneRuleKeys(before: Rules.View, owned: set<Id>, k: Kid.Kids, g: Graph, id: Id, vs: VirtualServer, rules: seq<RoutingRule>)
    requires LC.RoutesDone(before, owned, k, g, id, vs, rules) && Rules.DistinctOwned(before, owned, false)
    requires forall desired | LC.DesiredFor(rules, g, vs.name, desired) :: Rules.DistinctSpecs(desired)
    ensures forall key | ListenerRuleKey(g, vs.name, rules, key) :: key in g.routingRules
    ensures forall key | key in g.routingRules && VSName(key) == vs.name :: ListenerRuleKey(g, vs.name, rules, key)
  {
    hide VSName, PoolKeyOf, RuleKeyOf, Rules.KeyOf, Rules.HeldByForeign, Rules.DistinctSpecs, Rules.DistinctOwned, LC.RulesOnRecord, Rules.Converged;
    var desired :| LC.DesiredFor(rules, g, vs.name, desired)
      && (Rules.DistinctSpecs(desired) && Rules.DistinctOwned(before, owned, false) ==> LC.RulesDone(before, owned, k, g, id, vs, desired));
    var out: seq<Kid.RuleInfo> :| Rules.Converged(before, Rules.ViewOf(k, id), owned, false, desired, out) && LC.RulesOnRecord(g.routingRules, vs, out);
    RecordedRuleKeys(before, owned, Rules.ViewOf(k, id), g, vs, rules, desired, out);
  }

  lemma RecordedRuleKeys(before: Rules.View, owned: set<Id>, v: Rules.View, g: Graph, vs: VirtualServer, rules: seq<RoutingRule>,
                         desired: seq<Kid.RuleSpec>, out: seq<Kid.RuleInfo>)
    requires LC.DesiredFor(rules, g, vs.name, desired)
    requires Rules.Converged(before, v, owned, false, desired, out) && LC.RulesOnRecord(g.routingRules, vs, out)
    ensures forall key | ListenerRuleKey(g, vs.name, rules, key) :: key in g.routingRules
    ensures forall key | key in g.routingRules && VSName(key) == vs.name :: ListenerRuleKey(g, vs.name, rules, key)
  {
    hide VSName, PoolKeyOf, RuleKeyOf, Rules.KeyOf, Rules.HeldByForeign, LC.RuleEntry;
    forall x | 0 <= x < |rules|
      ensures RuleKeyOf(vs.name, Rules.KeyOf(Kid.RuleSpec(rules[x].host, rules[x].path, rules[x].matchType,
                                                          IDAt(g.pools, PoolKeyOf(vs.name, rules[x].poolName)))))
              == LC.RuleKey(vs.name, out[x])
    {
      assert Rules.KeyOf(out[x].spec) == Rules.KeyOf(desired[x]);
    }
  }

  /** After a full pass over a tree of keys, the member keys on record are exactly the desired ones. */
  lemma MemberKeysAreExact(n: Net, k0: Kid.Kids, given: Graph, k: Kid.Kids, g: Graph, lb: Id, vip: Id, req: Request, vsID: Id, ids: seq<Id>)
    requires Achieved(n, k0, given, k, g, lb, vip, req, vsID, ids) && Closed(given) && !req.aggregate
    ensures forall key :: key in g.members <==> IsMemberKey(req.stack, req.resolve, key)
  {
    hide Standing, Hashed, Orderly, ListenersSettled, PoolsSettled, LC.Workable, VSName, PoolKey, PoolKeyOf, MemberKeyOf, LC.PoolsFor,
      LC.SpecsOf, LC.MembersDone, LC.MonitorDone, LC.RoutesDone, LC.AllServed, LC.PoolEntry, Convergence.KidsDistinct, LC.PoolIDsApart,
      PoolMemberKey, Rules.ViewOf, LC.OwnedRules, Obsolete.DesiredPoolKeys;
    var vss := req.stack.virtualServers;
    forall j, i | 0 <= j < |vss| && 0 <= i < |LC.PoolsFor(req.stack, vss[j])|
      ensures var pool := LC.PoolsFor(req.stack, vss[j])[i];
              && (forall key | PoolMemberKey(vss[j].name, pool, req.resolve, key) :: key in g.members)
              && (forall key | key in g.members && PoolKey(key) == PoolKeyOf(vss[j].name, pool.name) ::
                    PoolMemberKey(vss[j].name, pool, req.resolve, key))
    {
      var pool := LC.PoolsFor(req.stack, vss[j])[i];
      assert LC.PoolDone(k, g, ids[j], vss[j], pool, LC.SpecsOf(req.resolve, pool.members).value);
      DoneMemberKeys(k, g, g.pools[PoolKeyOf(vss[j].name, pool.name)].externalID, vss[j].name, pool, req.resolve);
    }
    forall key | key in g.members ensures IsMemberKey(req.stack, req.resolve, key) {
      var j, i := Closure.DesiredKeyReads(req.stack, req.resolve, PoolKey(key));
      assert PoolMemberKey(vss[j].name, LC.PoolsFor(req.stack, vss[j])[i], req.resolve, key);
    }
  }

  /** And so are the rule keys, where rules have distinct keys. */
  lemma RuleKeysAreExact(n: Net, k0: Kid.Kids, given: Graph, k: Kid.Kids, g: Graph, lb: Id, vip: Id, req: Request, vsID: Id, ids: seq<Id>)
    requires Achieved(n, k0, given, k, g, lb, vip, req, vsID, ids) && Closed(given) && !req.aggregate
    requires DistinctRoutes(k0, given, g, req, ids)
    ensures forall key :: key in g.routingRules <==> IsRuleKey(req.stack, g, key)
  {
    hide Standing, Hashed, Orderly, ListenersSettled, PoolsSettled, LC.Workable, VSName, PoolKey, PoolKeyOf, LC.PoolsFor, LC.PoolsDone, LC.RoutesDone,
      LC.AllServed, Convergence.KidsDistinct, LC.PoolIDsApart, Rules.ViewOf, LC.OwnedRules, Obsolete.DesiredPoolKeys, ListenerRuleKey, LC.DesiredFor,
      Rules.DistinctSpecs, Rules.DistinctOwned;
    var vss := req.stack.virtualServers;
    forall j | 0 <= j < |vss|
      ensures (forall key | ListenerRuleKey(g, vss[j].name, req.stack.routingRules, key) :: key in g.routingRules)
      ensures forall key | key in g.routingRules && VSName(key) == vss[j].name :: ListenerRuleKey(g, vss[j].name, req.stack.routingRules, key)
    {
      DoneRuleKeys(Rules.ViewOf(k0, ids[j]), LC.OwnedRules(given.routingRules, vss[j].name), k, g, ids[j], vss[j], req.stack.routingRules);
    }
    forall key | key in g.routingRules ensures IsRuleKey(req.stack, g, key) {
      var j :| 0 <= j < |vss| && vss[j].name == VSName(key);
      assert ListenerRuleKey(g, vss[j].name, req.stack.routingRules, key);
    }
  }

  /** The provider has no monitor for the pool that is on record under the key. */
  predicate Unmonitored(k: Kid.Kids, g: Graph, key: string) {
    key in g.pools && Monitors.ViewOf(k, g.pools[key].externalID) == map[]
  }

  lemma DoneMonitors(k: Kid.Kids, g: Graph, vsID: Id, vs: VirtualServer, pool: Pool, specs: seq<Kid.MemberSpec>)
    requires LC.PoolDone(k, g, vsID, vs, pool, specs)
    ensures Unmonitored(k, g, PoolKeyOf(vs.name, pool.name)) <==> pool.monitor.None?
  {
    hide PoolKeyOf, LC.MembersDone, Monitors.ViewOf, Monitors.Right, LC.PoolEntry;
  }

  lemma MonitoredExactly(stack: Stack, resolve: LC.Resolver, j: nat, i: nat)
    requires Convergence.StackFits(stack, resolve) && j < |stack.virtualServers| && i < |LC.PoolsFor(stack, stack.virtualServers[j])|
    ensures var vs := stack.virtualServers[j]; var pool := LC.PoolsFor(stack, vs)[i];
            PoolKeyOf(vs.name, pool.name) in Obsolete.DesiredMonitorKeys(stack) <==> pool.monitor.Some?
  {
    hide PoolKeyOf, LC.PoolsFor, LC.Workable;
    var vs := stack.virtualServers[j];
    var pools := LC.PoolsFor(stack, vs);
    var key := PoolKeyOf(vs.name, pools[i].name);
    Convergence.FittingIsWorkable(stack, resolve, vs);
    if pools[i].monitor.Some? {
      assert key in LC.MonitoredKeys(vs.name, pools);
    }
    if key in Obsolete.DesiredMonitorKeys(stack) {
      var y :| 0 <= y < |stack.virtualServers|
               && key in LC.MonitoredKeys(stack.virtualServers[y].name, LC.PoolsFor(stack, stack.virtualServers[y]));
      var other := stack.virtualServers[y];
      Convergence.FittingIsWorkable(stack, resolve, other);
      var x :| 0 <= x < |LC.PoolsFor(stack, other)| && LC.PoolsFor(stack, other)[x].monitor.Some?
               && PoolKeyOf(other.name, LC.PoolsFor(stack, other)[x].name) == key;
      DifferentPoolsDifferentKeys(other.name, LC.PoolsFor(stack, other)[x].name, vs.name, pools[i].name);
      DistinctAreOne(pools, resolve, x, i);
    }
  }

  lemma DistinctAreOne(pools: seq<Pool>, resolve: LC.Resolver, x: nat, i: nat)
    requires LC.Workable(pools, resolve) && x < |pools| && i < |pools| && pools[x].name == pools[i].name
    ensures x == i
  {
    hide LC.SpecsOf;
  }

  /** After a full pass over a tree of keys, the entries of monitors are exactly those of the pools that ask for one, and those
      of before of pools that no longer do. The latter are the ones without a monitor at the provider: an entry outlives its
      monitor exactly if its pool stays and stops asking for one. */
  lemma MonitorKeysAreExact(n: Net, k0: Kid.Kids, given: Graph, k: Kid.Kids, g: Graph, lb: Id, vip: Id, req: Request, vsID: Id, ids: seq<Id>,
                            j: nat, i: nat)
    requires Achieved(n, k0, given, k, g, lb, vip, req, vsID, ids) && Closed(given) && !req.aggregate
    requires j < |req.stack.virtualServers| && i < |LC.PoolsFor(req.stack, req.stack.virtualServers[j])|
    ensures var vs := req.stack.virtualServers[j]; var pool := LC.PoolsFor(req.stack, vs)[i]; var key := PoolKeyOf(vs.name, pool.name);
            && (key in g.monitors <==> pool.monitor.Some? || key in given.monitors)
            && (key in g.monitors && Unmonitored(k, g, key) <==> pool.monitor.None? && key in given.monitors)
    ensures forall key | key in g.monitors :: key in Obsolete.DesiredPoolKeys(req.stack)
  {
    hide Standing, Hashed, Orderly, ListenersSettled, PoolsSettled, PoolKeyOf, LC.PoolsFor, LC.SpecsOf, Obsolete.DesiredPoolKeys,
      Obsolete.DesiredMonitorKeys, LC.MembersDone, LC.MonitorDone, LC.RoutesDone, LC.AllServed, LC.PoolEntry, Convergence.KidsDistinct,
      LC.PoolIDsApart, Rules.ViewOf, LC.OwnedRules, Unmonitored, Closed, LC.Workable;
    var vs := req.stack.virtualServers[j];
    var pool := LC.PoolsFor(req.stack, vs)[i];
    assert LC.PoolDone(k, g, ids[j], vs, pool, LC.SpecsOf(req.resolve, pool.members).value);
    DoneMonitors(k, g, ids[j], vs, pool, LC.SpecsOf(req.resolve, pool.members).value);
    MonitoredExactly(req.stack, req.resolve, j, i);
    DesiredKeyIsNotGone(g, req.stack, j, i);
  }

  // Such an entry: the pool was as desired with its monitor and now is as desired without, on one and the same record.

  const ONE_LISTENER := VirtualServer("tcp-80", 80, 30080, "TCP", "", "", 0, [], None, "", NO_OWNER)
  const ALIVE := Kid.MonitorSpec("alive", "HTTP", "/", 5)
  const BARE_POOL := Pool("web", "web", "http", 80, [], None, NO_OWNER)
  const WATCHED_POOL := BARE_POOL.(monitor := Some(Monitor("alive", "HTTP", "/", 5, 80, 1)))
  const BARE := Kid.Kids(map["p" := Kid.PoolRec("vs", "web-1")], map[], map[], map[], map[], {"p", "m"})
  const WATCHED := BARE.(monitors := map["m" := Kid.MonitorRec("p", ALIVE)])

  /** The record of the pool with its monitor. */
  function WatchedRecord(): Graph {
    var key := PoolKeyOf(ONE_LISTENER.name, BARE_POOL.name);
    EMPTY_GRAPH.(pools := map[key := LC.PoolEntry(ONE_LISTENER.name, BARE_POOL, "p", "web-1")],
                 monitors := map[key := LC.MonitorEntry(ONE_LISTENER.name, BARE_POOL, Kid.Info("m", ALIVE))])
  }

  lemma AnEntryOutlivesItsMonitor()
    ensures LC.PoolDone(WATCHED, WatchedRecord(), "vs", ONE_LISTENER, WATCHED_POOL, [])
    ensures LC.PoolDone(BARE, WatchedRecord(), "vs", ONE_LISTENER, BARE_POOL, [])
    ensures var key := PoolKeyOf(ONE_LISTENER.name, BARE_POOL.name);
            && key in WatchedRecord().monitors && Unmonitored(BARE, WatchedRecord(), key) && !Unmonitored(WATCHED, WatchedRecord(), key)
  {
    hide PoolKeyOf, LC.PoolEntry, LC.MonitorEntry, Monitors.Right;
    OnlyTheMonitorIsMissing(BARE, BARE_POOL, Monitors.NO_MONITOR);
    MonitorIsRight();
    OnlyTheMonitorIsMissing(WATCHED, WATCHED_POOL, Kid.Info("m", ALIVE));
  }

  lemma MonitorIsRight()
    ensures Monitors.Ends(Monitors.ViewOf(WATCHED, "p"), WATCHED_POOL.monitor, Kid.Info("m", ALIVE))
  {
  }

  lemma OnlyTheMonitorIsMissing(k: Kid.Kids, pool: Pool, m: Kid.MonitorInfo)
    requires k == BARE.(monitors := k.monitors) && pool == BARE_POOL.(monitor := pool.monitor)
    requires Monitors.Ends(Monitors.ViewOf(k, "p"), pool.monitor, m) && m in [Monitors.NO_MONITOR, Kid.Info("m", ALIVE)]
    ensures LC.PoolDone(k, WatchedRecord(), "vs", ONE_LISTENER, pool, [])
  {
    hide PoolKeyOf, Monitors.Ends;
    assert Members.Converged(Members.View(k, "p"), [], []) && LC.MembersOnRecord(WatchedRecord().members, ONE_LISTENER.name, pool, []);
    assert LC.MonitorOnRecord(WatchedRecord(), ONE_LISTENER.name, pool, m);
  }

  // ----- A second pass -----

  /** The record names the stack's listeners and pools and nothing else, but for a scalar's alias. */
  predicate OnlyTheStacks(g: Graph, req: Request) {
    && (forall name | name in Recovery.Names(req.stack.virtualServers) :: name in g.virtualServers && g.virtualServers[name].externalID != NO_ID)
    && (forall key | key in g.virtualServers && key !in Recovery.Names(req.stack.virtualServers) ::
          key == Observed.LEGACY_VS && AliasOf(g, g.virtualServers[key].externalID, Recovery.Names(req.stack.virtualServers)))
    && (!req.aggregate ==> g.pools.Keys <= Obsolete.DesiredPoolKeys(req.stack))
  }

  predicate AliasOf(g: Graph, id: Id, names: set<string>) {
    exists name | name in names :: name in g.virtualServers && g.virtualServers[name].externalID == id
  }

  /** The parents are on record as they are, no alias is left to be dropped, and the scalar names a listener on record. */
  predicate RecordRests(g: Graph, stack: Stack, lbID: Id, vipID: Id, vipAddress: string, vsID: Id) {
    && stack.lbService.name in g.lbServices && g.lbServices[stack.lbService.name] == ParentEntry(stack, lbID)
    && stack.vip.name in g.vips && g.vips[stack.vip.name] == VIPEntry(stack, vipID, vipAddress)
    && stack.lbService.name != Observed.LEGACY_LB && stack.vip.name != Observed.LEGACY_VIP
    && Observed.Drop(g.lbServices, Observed.LEGACY_LB) == g.lbServices && Observed.Drop(g.vips, Observed.LEGACY_VIP) == g.vips
    && Observed.Drop(g.virtualServers, Observed.LEGACY_VS) == g.virtualServers
    && (vsID == NO_ID || vsID in Observed.Ids(g.virtualServers))
  }

  /** There is nothing to be done: parents, listeners and their children are as asked, and nothing else is on record. `start`
      is the record, and `g` the same with scalar ids mirrored. */
  ghost predicate AtRest(n: Net, k: Kid.Kids, start: Graph, g: Graph, req: Request, lbID: Id, vipID: Id, vipAddress: string, vsID: Id) {
    && ParentsRest(n, req, lbID, vipID, vipAddress) && LoopRests(n, k, g, lbID, vipID, req, vsID) && OnlyTheStacks(g, req)
    && RecordRests(start, req.stack, lbID, vipID, vipAddress, vsID)
  }

  /** Mirroring a scalar id that is on record anyway is undone when aliases are dropped. */
  lemma DropUndoesMirror(b: Bucket, legacy: string, id: Id, r: Resource)
    requires r.externalID == id && (id == NO_ID || id in Observed.Ids(b)) && Observed.Drop(b, legacy) == b
    ensures Observed.Drop(Observed.Mirror(b, legacy, id, r), legacy) == b
  {
    var m := Observed.Mirror(b, legacy, id, r);
    if m != b {
      var key :| key in b && b[key].externalID == id;
      assert key in m && m[key].externalID == id && key != legacy;
      assert m - {legacy} == b;
    }
  }

  lemma SameEntryAgain(b: Bucket, name: string, e: Resource)
    requires name in b && b[name] == e
    ensures b[name := e] == b
  {
  }

  lemma RecordReturns(start: Graph, given: Graph, before: Graph, stack: Stack, lb: Id, vip: Id, address: string, vsID: Id, names: set<string>,
                      a: Resource, b: Resource, d: Resource)
    requires RecordRests(start, stack, lb, vip, address, vsID) && ParentsRecorded(given, before, stack, lb, vip, address)
    requires given == start.(lbServices := Observed.Mirror(start.lbServices, Observed.LEGACY_LB, lb, a),
                             vips := Observed.Mirror(start.vips, Observed.LEGACY_VIP, vip, b),
                             virtualServers := Observed.Mirror(start.virtualServers, Observed.LEGACY_VS, vsID, d))
    requires a.externalID == lb && b.externalID == vip && d.externalID == vsID
    requires Prepared(given, before, names) && before.virtualServers == given.virtualServers
    ensures Dropped(before) == start
  {
    hide Observed.Drop, Observed.Mirror, Keyed;
    Observed.MirrorKeepsEntries(start.lbServices, Observed.LEGACY_LB, lb, a);
    Observed.MirrorKeepsEntries(start.vips, Observed.LEGACY_VIP, vip, b);
    SameEntryAgain(given.lbServices, stack.lbService.name, ParentEntry(stack, lb));
    SameEntryAgain(given.vips, stack.vip.name, VIPEntry(stack, vip, address));
    EntryIsOnRecord(start.lbServices, stack.lbService.name);
    EntryIsOnRecord(start.vips, stack.vip.name);
    DropUndoesMirror(start.lbServices, Observed.LEGACY_LB, lb, a);
    DropUndoesMirror(start.vips, Observed.LEGACY_VIP, vip, b);
    DropUndoesMirror(start.virtualServers, Observed.LEGACY_VS, vsID, d);
  }

  lemma EntryIsOnRecord(b: Bucket, name: string)
    requires name in b
    ensures b[name].externalID == NO_ID || b[name].externalID in Observed.Ids(b)
  {
  }

  lemma LoopStillRests(n0: Net, l0: seq<Event>, n: Net, l: seq<Event>, k: Kid.Kids, given: Graph, before: Graph, lb: Id, vip: Id,
                       req: Request, vsID: Id, names: set<string>)
    requires PatchedOnly(n0, l0, n, l) && LoopRests(n0, k, given, lb, vip, req, vsID)
    requires Prepared(given, before, names) && before.virtualServers == given.virtualServers
    ensures LoopRests(n, k, before, lb, vip, req, vsID)
  {
    hide HashOf, VirtualServers.IsUp, VirtualServers.OnFrontend, LC.ListenerRests;
    forall j | 0 <= j < |req.stack.virtualServers|
      ensures ListenerAtRest(n, k, before, lb, vip, req, vsID, req.stack.virtualServers[j])
    {
      var vs := req.stack.virtualServers[j];
      assert RequestFor(req, before, lb, vip, vs, vsID, false) == RequestFor(req, given, lb, vip, vs, vsID, false);
      assert ListenerAtRest(n0, k, given, lb, vip, req, vsID, vs);
      if !req.aggregate {
        SameChildrenRest(k, given, before, CurrentID(given, req.stack, vs, vsID), vs, req.stack, req.resolve);
      }
    }
  }

  /** Where only the stack's listeners and pools are on record, nothing is obsolete, and nothing goes but aliases. */
  lemma KeptIsNotObsolete(g: Graph, req: Request)
    requires OnlyTheStacks(g, req)
    ensures NothingObsolete(Dropped(g), req) && AfterDeletions(g, req) == Dropped(g)
  {
    hide Observed.Drop, Obsolete.DesiredPoolKeys, Obsolete.WithoutPools, WithoutListeners;
    var names := Recovery.Names(req.stack.virtualServers);
    Observed.DropKeepsIds(g.virtualServers, Observed.LEGACY_VS);
    forall key | key in Dropped(g).virtualServers ensures key in names {}
    WithoutNone(Dropped(g));
    WithoutNoPools(Dropped(g));
  }

  lemma WithoutNoPools(g: Graph)
    ensures Obsolete.WithoutPools(g, {}) == g
  {
    hide PoolKey;
    assert g.pools - {} == g.pools;
  }

  /** The listener loop and the deletions, once parents are settled. The ghost results are the graph and the provider's
      pools and rules between the two, and the ids of the listeners. */
  method Complete(c: Client, k: Kid.ChildClient, observed: Observed.State, req: Request, lb: Id, subnet: string, ghost s: Service, ghost hyp: bool)
    returns (err: Option<Stop>, changed: bool, ghost calls: seq<Call>, ghost g: Graph, ghost k1: Kid.Kids, ghost ids: seq<Id>)
    requires c.Valid() && k.Valid() && lb in c.net.issued && req.stack.virtualServers != []
    requires Publishable(c.naming, c.net, c.actor, s, req, observed.graph, lb, observed.vipID, observed.vsID)
    requires c.naming.lb(c.actor) != Observed.LEGACY_LB && forall i | 0 <= i < |req.stack.virtualServers| ::
               req.stack.virtualServers[i].name !in {"", Observed.LEGACY_VS} && OwnName(c.naming, c.actor, req.stack.virtualServers[i].name)
    requires (!req.aggregate ==> hyp) && (hyp ==> Ordered(c.net, k.kids, observed.graph, req, observed.vsID))
    requires KeepsVIP(c.net, c.actor, lb, observed.vipID, FrontOf(req, subnet))
    modifies c, k, observed`graph, observed`vsID, observed`vsName
    ensures c.Valid() && k.Valid() && c.faults <= old(c.faults) && k.faults <= old(k.faults)
    ensures Span(c.actor, old(c.net), old(c.log), calls, c.net, c.log) && CreatesOn(calls, observed.vipID, FrontOf(req, subnet))
    ensures SparesOthers(old(k.kids), old(observed.graph), k.kids)
    ensures err.None? ==>
              && Publishable(c.naming, c.net, c.actor, s, req, observed.graph, lb, observed.vipID, observed.vsID)
              && observed.graph.lbServices == Observed.Drop(old(observed.graph.lbServices), Observed.LEGACY_LB)
              && observed.graph.vips == Observed.Drop(old(observed.graph.vips), Observed.LEGACY_VIP)
              && (observed.vsID == NO_ID || observed.vsID in Observed.Ids(observed.graph.virtualServers)
                  || (|req.stack.virtualServers| != 1 && observed.vsID == old(observed.vsID)))
              && ScalarFollows(req.stack, old(observed.vsID), observed.graph, observed.vsID)
    ensures err.None? && hyp ==>
              && RecordsNames(old(observed.graph).virtualServers, g.virtualServers, Recovery.Names(req.stack.virtualServers))
              && (if req.aggregate then g == old(observed.graph).(virtualServers := g.virtualServers)
                  else Convergence.ChildrenDone(old(k.kids), old(observed.graph), k1, g, ids, req.stack, req.resolve))
              && Finished(c.net, old(k.kids), old(observed.graph), k.kids, observed.graph, lb, observed.vipID, req, observed.vsID, ids)
              && observed.graph == AfterDeletions(g, req)
              && AllLeaving(c.net, lb, ListenerIDsAt(Dropped(g), ObsoleteListeners(Dropped(g), Recovery.Names(req.stack.virtualServers))))
              && (!req.aggregate ==> Obsolete.PoolsGone(k.kids, Dropped(g), Obsolete.ObsoletePools(Dropped(g), Obsolete.DesiredPoolKeys(req.stack))))
    ensures err.None? && hyp && ObsoleteListeners(Dropped(g), Recovery.Names(req.stack.virtualServers)) != {} ==> changed
    ensures hyp && c.quiet && OnlyTheStacks(old(observed.graph), req)
            && old(LoopRests(c.net, k.kids, observed.graph, lb, observed.vipID, req, observed.vsID)) ==>
              && c.net == old(c.net) && c.log == old(c.log) && k.kids == old(k.kids) && k.calls == old(k.calls)
              && (err.None? ==> !changed && observed.graph == Dropped(old(observed.graph)))
              && (old(c.faults) == 0 && old(k.faults) == 0 && old(Answered(c.net, observed.graph, lb, observed.vipID, req, observed.vsID)) ==>
                    err.None?)
  {
    hide Inv, Run, Span, WellFormed, Publishable, LeavesOthers, SparesOthers, LoopDone, Fit, Finished, AllLeaving, RecordsNames, Ordered,
      Kid.WellFormedKids, AfterDeletions, Dropped, Observed.Drop, DeletedBy, Obsolete.PoolsGone, Obsolete.DesiredPoolKeys,
      Obsolete.ObsoletePools, ObsoleteListeners, ListenerIDsAt, Convergence.ChildrenDone, Recovery.Names, KnownIDs, OwnName,
      ScalarFollows, CreatesOn, LoopRests, OnlyTheStacks, NothingObsolete, KeepsVIP, Answered, FrontOf, Provided;
    ghost var n0, l0, before, k0, vsID0 := c.net, c.log, observed.graph, k.kids, observed.vsID;
    PublishableSays(c.naming, n0, c.actor, s, req, before, lb, observed.vipID, observed.vsID);
    InvIsWellFormed(c.naming, n0);
    k1, g := k0, before;
    ghost var calls0;
    var changed0;
    err, changed0, calls0, ids := EnsureListeners(c, k, observed, req, lb, subnet, hyp);
    changed, calls := changed0, calls0;
    ghost var rests := hyp && c.quiet && OnlyTheStacks(before, req) && LoopRests(n0, k0, before, lb, observed.vipID, req, vsID0);
    if rests {
      ReadsKeepLog(c.actor, n0, l0, c.net, c.log);
      KeptIsNotObsolete(before, req);
    }
    if err.Some? {
      return;
    }
    ghost var n1, l1 := c.net, c.log;
    k1, g := k.kids, observed.graph;
    LoopIsPublishable(c.naming, c.actor, n0, l0, calls0, n1, l1, s, req, before, g, lb, observed.vipID, vsID0, observed.vsID);
    LoopSays(n1, k0, before, k1, g, lb, observed.vipID, req, observed.vsID, ids, hyp);
    if hyp {
      OrderedFits(n0, k0, before, req, vsID0);
    }
    AfterParents(g, req);
    ghost var calls1;
    var changed1;
    err, changed1, calls1 := DeleteObsolete(c, k, observed, req, lb, s, k0, before, ids, hyp);
    changed, calls := changed0 || changed1, calls0 + calls1;
    InvIsWellFormed(c.naming, n1);
    CallsConcat(c.actor, n0, l0, calls0, n1, l1, calls1, c.net, c.log, observed.vipID, FrontOf(req, subnet));
    if err.Some? {
      return;
    }
    if rests {
      ReadsKeepLog(c.actor, n1, l1, c.net, c.log);
    }
    ScalarStaysRecorded(g, req, vsID0, observed.vsID);
  }

  lemma CallsConcat(actor: string, n0: Net, l0: seq<Event>, calls0: seq<Call>, n1: Net, l1: seq<Event>, calls1: seq<Call>, n: Net, l: seq<Event>,
                    vip: Id, front: Frontend)
    requires WellFormed(n0) && WellFormed(n1) && Span(actor, n0, l0, calls0, n1, l1) && Span(actor, n1, l1, calls1, n, l)
    requires CreatesOn(calls0, vip, front) && forall i | 0 <= i < |calls1| :: calls1[i].DeleteListener?
    ensures Span(actor, n0, l0, calls0 + calls1, n, l) && CreatesOn(calls0 + calls1, vip, front)
  {
    hide Span, WellFormed, CreatesOn;
    SpanConcat(actor, n0, l0, calls0, n1, l1, calls1, n, l);
    CreatesOnRest(calls0, calls1, vip, front);
  }

  lemma AfterParents(g: Graph, req: Request)
    ensures AfterDeletions(g, req).lbServices == Observed.Drop(g.lbServices, Observed.LEGACY_LB)
    ensures AfterDeletions(g, req).vips == Observed.Drop(g.vips, Observed.LEGACY_VIP)
  {
    DeletedEntriesOnly(g, req);
  }

  /** The parents on record after a pass, aliases apart. */
  predicate ParentsReturned(given: Graph, g: Graph, stack: Stack, lb: Id, vip: Id, address: string) {
    && g.lbServices == Observed.Drop(given.lbServices[stack.lbService.name := ParentEntry(stack, lb)], Observed.LEGACY_LB)
    && g.vips == Observed.Drop(given.vips[stack.vip.name := VIPEntry(stack, vip, address)], Observed.LEGACY_VIP)
  }

  /** The mirrored record has an alias for an id that no listener on record has in the end. */
  predicate AliasLost(before: Graph, g: Graph) {
    && Observed.LEGACY_VS in before.virtualServers && before.virtualServers[Observed.LEGACY_VS].externalID != NO_ID
    && before.virtualServers[Observed.LEGACY_VS].externalID !in Observed.Ids(g.virtualServers)
  }

  /** What follows when load balancer and VIP are on record, seen from the beginning of the pass: then the provider was `n0`, the
      log `l0`, the mirrored record `given`, and the known VIP `vip0`. */
  method Finish(c: Client, k: Kid.ChildClient, observed: Observed.State, req: Request, lb: Id, subnet: string, ghost s: Service, ghost hyp: bool,
                ghost n0: Net, ghost l0: seq<Event>, ghost given: Graph, ghost vip0: Id)
    returns (failure: Option<Stop>, changed: bool, ghost ids: seq<Id>)
    requires c.Valid() && k.Valid() && lb in c.net.issued && req.stack.virtualServers != []
    requires Publishable(c.naming, c.net, c.actor, s, req, observed.graph, lb, observed.vipID, observed.vsID)
    requires c.naming.lb(c.actor) != Observed.LEGACY_LB && forall i | 0 <= i < |req.stack.virtualServers| ::
               req.stack.virtualServers[i].name !in {"", Observed.LEGACY_VS} && OwnName(c.naming, c.actor, req.stack.virtualServers[i].name)
    requires (!req.aggregate ==> hyp) && (hyp ==> Ordered(c.net, k.kids, observed.graph, req, observed.vsID))
    requires hyp ==> Orderly(n0, given, req.stack, observed.vsID) && Fit(req)
    requires KeepsVIP(c.net, c.actor, lb, observed.vipID, FrontOf(req, subnet)) && AsksFor(l0, c.log, Recovery.Names(req.stack.virtualServers))
    requires Inv(c.naming, n0) && NamesLater(n0, c.net) && c.net.listeners.Keys <= n0.listeners.Keys
    requires TakesVIP(n0, c.net, lb, subnet, Recovery.Names(req.stack.virtualServers), vip0, observed.vipID)
    requires Prepared(given, observed.graph, Recovery.Names(req.stack.virtualServers))
    modifies c, k, observed`graph, observed`vsID, observed`vsName
    ensures c.Valid() && k.Valid() && c.faults <= old(c.faults) && k.faults <= old(k.faults)
    ensures SparesOthers(old(k.kids), old(observed.graph), k.kids) && AsksFor(l0, c.log, Recovery.Names(req.stack.virtualServers))
    ensures KeepsToVIP(n0, c.net, lb, subnet, Recovery.Names(req.stack.virtualServers), vip0)
    ensures MakesNoLB(old(c.log), c.log) && MakesNoVIP(old(c.log), c.log)
    ensures old(StandsAsAsked(c.net, req, lb, subnet)) ==> StandsAsAsked(c.net, req, lb, subnet)
    ensures old(VIPStands(c.net, lb, subnet, observed.vipID, observed.vipAddress)) ==>
              VIPStands(c.net, lb, subnet, observed.vipID, observed.vipAddress)
    ensures failure.None? ==>
              && Publishable(c.naming, c.net, c.actor, s, req, observed.graph, lb, observed.vipID, observed.vsID)
              && NamesLater(n0, c.net) && KeepsVIP(c.net, c.actor, lb, observed.vipID, FrontOf(req, subnet))
              && observed.graph.lbServices == Observed.Drop(old(observed.graph.lbServices), Observed.LEGACY_LB)
              && observed.graph.vips == Observed.Drop(old(observed.graph.vips), Observed.LEGACY_VIP)
              && (observed.vsID == NO_ID || observed.vsID in Observed.Ids(observed.graph.virtualServers)
                  || (|req.stack.virtualServers| != 1 && observed.vsID == old(observed.vsID)))
              && ScalarFollows(req.stack, old(observed.vsID), observed.graph, observed.vsID)
    ensures failure.None? && hyp ==>
              && Achieved(c.net, old(k.kids), given, k.kids, observed.graph, lb, observed.vipID, req, observed.vsID, ids)
              && (AliasLost(given, observed.graph) ==> changed)
    ensures hyp && c.quiet && OnlyTheStacks(old(observed.graph), req)
            && old(LoopRests(c.net, k.kids, observed.graph, lb, observed.vipID, req, observed.vsID)) ==>
              && c.net == old(c.net) && c.log == old(c.log) && k.kids == old(k.kids) && k.calls == old(k.calls)
              && (failure.None? ==> !changed && observed.graph == Dropped(old(observed.graph)))
              && (old(c.faults) == 0 && old(k.faults) == 0 && old(Answered(c.net, observed.graph, lb, observed.vipID, req, observed.vsID)) ==>
                    failure.None?)
  {
    hide Inv, Run, Span, WellFormed, Publishable, SparesOthers, Fit, Finished, AllLeaving, Prepared, RecordsNames, Achieved, Ordered,
      Orderly, NamesLater, Kid.WellFormedKids, AfterDeletions, Dropped, Observed.Drop, DeletedBy, Obsolete.PoolsGone,
      Obsolete.DesiredPoolKeys, Obsolete.ObsoletePools, ObsoleteListeners, ListenerIDsAt, Convergence.ChildrenDone, Recovery.Names, KnownIDs,
      OwnName, KeepsToVIP, TakesVIP, CreatesOn, LoopRests, OnlyTheStacks, KeepsVIP, AsksFor, ScalarFollows, AliasLost, Answered,
      MakesNoLB, MakesNoVIP, StandsAsAsked, VIPStands;
    ghost var n1, l1, k0, before, vsID0 := c.net, c.log, k.kids, observed.graph, observed.vsID;
    InvIsWellFormed(c.naming, n0);
    InvIsWellFormed(c.naming, n1);
    ghost var calls, g, k1;
    failure, changed, calls, g, k1, ids := Complete(c, k, observed, req, lb, subnet, s, hyp);
    InvIsWellFormed(c.naming, c.net);
    CreationsSettle(c.actor, n0, n1, l0, l1, calls, c.net, c.log, lb, subnet, Recovery.Names(req.stack.virtualServers), vip0, observed.vipID);
    CreationsMakeNone(c.actor, n1, l1, calls, c.net, c.log, observed.vipID, FrontOf(req, subnet));
    if StandsAsAsked(n1, req, lb, subnet) {
      PlacesStay(n1, c.net, req, lb, subnet);
    }
    if VIPStands(n1, lb, subnet, observed.vipID, observed.vipAddress) {
      VIPStays(n1, c.net, lb, subnet, observed.vipID, observed.vipAddress);
    }
    if failure.None? && hyp {
      LostAliasIsObsolete(given, before, g, req);
      PassAchieves(c.naming, n0, c.net, k0, given, before, k1, g, k.kids, observed.graph, lb, observed.vipID, req, vsID0, observed.vsID, ids);
    }
  }

  /** Load balancer with checkpoint, recovery and VIP. `k` is the provider's pools and rules at the time. */
  method Prepare(c: Client, observed: Observed.State, req: Request, ghost s: Service, ghost k: Kid.Kids) returns (r: Result<Parents, Stop>)
    requires c.Valid() && c.actor in c.net.services && s == c.net.services[c.actor]
    requires Begins(c.naming, c.net, c.actor, req, observed.graph, observed.lbID, observed.vipID, observed.vsID)
    modifies c, observed
    ensures c.Valid() && c.faults <= old(c.faults)
    ensures NamesLater(old(c.net), c.net) && c.net.listeners.Keys <= old(c.net).listeners.Keys
    ensures AsksFor(old(c.log), c.log, Recovery.Names(req.stack.virtualServers))
    ensures StaysWith(old(c.net), req, old(observed.lbID), old(observed.vipID), old(c.log), c.log, r.Ok?, observed.lbID, observed.vipID)
    ensures r.Ok? ==>
              && StandsAsAsked(c.net, req, r.value.lb, r.value.subnet)
              && VIPStands(c.net, r.value.lb, r.value.subnet, observed.vipID, observed.vipAddress)
    ensures c.quiet && old(AtRest(c.net, k, observed.graph, observed.Mirrored(), req, observed.lbID, observed.vipID, observed.vipAddress, observed.vsID)) ==>
              && PatchedOnly(old(c.net), old(c.log), c.net, c.log)
              && (r.Ok? ==> && !r.value.changed && r.value.lb == old(observed.lbID)
                            && observed.vipID == old(observed.vipID) && observed.vipAddress == old(observed.vipAddress)
                            && LoopRests(c.net, k, observed.graph, r.value.lb, observed.vipID, req, observed.vsID)
                            && OnlyTheStacks(observed.graph, req) && Dropped(observed.graph) == old(observed.graph))
              && (old(c.faults) == 0 && old(Answerable(c.net, observed.Mirrored(), req, observed.lbID, observed.vipID, observed.vsID)) ==>
                    r.Ok? && Answered(c.net, observed.graph, r.value.lb, observed.vipID, req, observed.vsID))
    ensures r.Ok? ==>
              && TakesVIP(old(c.net), c.net, r.value.lb, r.value.subnet, Recovery.Names(req.stack.virtualServers), old(observed.vipID), observed.vipID)
              && KeepsVIP(c.net, c.actor, r.value.lb, observed.vipID, FrontOf(req, r.value.subnet))
              && observed.lbID == r.value.lb && observed.vsID == old(observed.vsID) && observed.vsName == old(observed.vsName)
              && Publishable(c.naming, c.net, c.actor, s, req, observed.graph, r.value.lb, observed.vipID, observed.vsID)
              && observed.vipID != NO_ID && (req.strictVIP && old(observed.vipID) != NO_ID ==> observed.vipID == old(observed.vipID))
              && r.value.lb in c.net.issued && Prepared(old(observed.Mirrored()), observed.graph, Recovery.Names(req.stack.virtualServers))
              && ParentsRecorded(old(observed.Mirrored()), observed.graph, req.stack, r.value.lb, observed.vipID, observed.vipAddress)
              && (old(Ordered(c.net, k, observed.Mirrored(), req, observed.vsID)) ==> Ordered(c.net, k, observed.graph, req, observed.vsID))
  {
    hide Near, Inv, Run, Span, WellFormed, Vouched, OwnParents, Anchored, OwnName, Orderly, Convergence.NamesFit, NamesLater, Prepared, Publishable,
      Begins, Recovery.Names, TakesVIP, LBRests, SubnetOf, PatchedOnly, VIPs.Healthy, VIPs.AddressNow, KeepsVIP, AsksFor, MendsVIPs, ReachesVIP,
      Observed.Mirror, PlacementKnown, ParentsRest, AtRest, LoopRests, OnlyTheStacks, Dropped, Answered, Ordered,
      Lasting, LastingVIP, StillThere, MakesNoLB, MakesNoVIP, StandsAsAsked, KeepsLasting, StaysWith, VIPStands, Fit, ParentsRecorded, HasParent,
      FrontOf, VIPEntry, ParentEntry, KnownIDs, Provided, Observed.State.Mirrored, RecoveredFrom, Unique;
    ghost var n0, start, given, names := c.net, observed.graph, observed.Mirrored(), Recovery.Names(req.stack.virtualServers);
    ghost var rests := c.quiet && AtRest(n0, k, start, given, req, observed.lbID, observed.vipID, observed.vipAddress, observed.vsID);
    MirrorShape(observed);
    if rests {
      RestingParents(n0, k, start, given, req, observed.lbID, observed.vipID, observed.vipAddress, observed.vsID);
    }
    ghost var lbID0, vipID0 := observed.lbID, observed.vipID;
    r := PrepareLB(c, observed, req, s);
    if r.Err? {
      NotYet(n0, req, lbID0, vipID0, old(c.log), c.log, observed.lbID, observed.vipID);
      return;
    }
    ghost var n1, l1, g1 := c.net, c.log, observed.graph;
    var got := TakeVIP(c, observed, req, r.value.lb, r.value.subnet, s, given, n0);
    StaysThroughout(n0, n1, req, lbID0, vipID0, old(c.log), l1, c.log, got.Ok?, observed.lbID, r.value.subnet, observed.vipID);
    if got.Err? {
      return Err(got.error);
    }
    OrderedStays(n0, c.net, k, given, g1, observed.graph, req, observed.vsID, r.value.lb, observed.vipID, observed.vipAddress);
    if rests {
      StillAtRest(n0, old(c.log), c.net, c.log, k, start, given, observed.graph, r.value.lb, observed.vipID, observed.vipAddress, req,
                  observed.vsID, observed.vsName, names);
    }
    return Ok(Parents(r.value.lb, r.value.subnet, r.value.changed || got.value));
  }

  /** Deployer.EnsureStack, for a deployer without certificate manager. */
  method EnsureStack(c: Client, k: Kid.ChildClient, observed: Observed.State, req: Request)
    returns (r: Result<bool, Stop>, ghost ids: seq<Id>, ghost lb: Id, ghost subnet: string)
    requires c.Valid() && k.Valid()
    requires Begins(c.naming, c.net, c.actor, req, observed.graph, observed.lbID, observed.vipID, observed.vsID)
    requires !req.aggregate ==> Ordered(c.net, k.kids, observed.Mirrored(), req, observed.vsID)
    modifies c, k, observed
    ensures c.Valid() && k.Valid() && c.faults <= old(c.faults) && k.faults <= old(k.faults)
    ensures SparesOthers(old(k.kids), old(observed.graph), k.kids)
    ensures KeepsToVIP(old(c.net), c.net, lb, subnet, Recovery.Names(req.stack.virtualServers), old(observed.vipID))
    ensures AsksFor(old(c.log), c.log, Recovery.Names(req.stack.virtualServers))
    ensures StaysWith(old(c.net), req, old(observed.lbID), old(observed.vipID), old(c.log), c.log, r.Ok?, observed.lbID, observed.vipID)
    ensures r.Ok? ==>
              && observed.lbID == lb && StandsAsAsked(c.net, req, lb, subnet)
              && VIPStands(c.net, lb, subnet, observed.vipID, observed.vipAddress)
              && Publishable(c.naming, c.net, c.actor, old(c.net).services[c.actor], req, observed.graph, observed.lbID, observed.vipID, observed.vsID)
              && observed.vipID != NO_ID && (req.strictVIP && old(observed.vipID) != NO_ID ==> observed.vipID == old(observed.vipID))
              && NamesLater(old(c.net), c.net) && KeepsVIP(c.net, c.actor, lb, observed.vipID, FrontOf(req, subnet))
              && ParentsReturned(old(observed.Mirrored()), observed.graph, req.stack, lb, observed.vipID, observed.vipAddress)
    ensures r.Ok? ==> observed.vsID == NO_ID || observed.vsID in Observed.Ids(observed.graph.virtualServers)
                      || (|req.stack.virtualServers| != 1 && observed.vsID == old(observed.vsID))
    ensures r.Ok? ==> ScalarFollows(req.stack, old(observed.vsID), observed.graph, observed.vsID)
    ensures r.Ok? && old(Ordered(c.net, k.kids, observed.Mirrored(), req, observed.vsID)) ==>
              && Achieved(c.net, old(k.kids), old(observed.Mirrored()), k.kids, observed.graph, observed.lbID, observed.vipID, req, observed.vsID, ids)
              && (AliasLost(old(observed.Mirrored()), observed.graph) ==> r.value)
    ensures c.quiet && old(Ordered(c.net, k.kids, observed.Mirrored(), req, observed.vsID))
            && old(AtRest(c.net, k.kids, observed.graph, observed.Mirrored(), req, observed.lbID, observed.vipID, observed.vipAddress,
                          observed.vsID)) ==>
              && PatchedOnly(old(c.net), old(c.log), c.net, c.log) && k.kids == old(k.kids) && k.calls == old(k.calls)
              && (r.Ok? ==> !r.value && observed.graph == old(observed.graph) && observed.lbID == old(observed.lbID)
                            && observed.vipID == old(observed.vipID) && observed.vipAddress == old(observed.vipAddress))
              && (old(c.faults) == 0 && old(k.faults) == 0
                  && old(Answerable(c.net, observed.Mirrored(), req, observed.lbID, observed.vipID, observed.vsID)) ==>
                    r.Ok?)
    ensures |req.stack.virtualServers| == 0 || req.stack.certificates != [] ==> r == Err(Invalid) && c.net == old(c.net)
  {
    hide Inv, Run, Span, WellFormed, Publishable, SparesOthers, Fit, Finished, AllLeaving, Prepared, RecordsNames, Achieved, Ordered,
      Orderly, NamesLater, Begins, Kid.WellFormedKids, AfterDeletions, Dropped, Observed.Drop, DeletedBy, Obsolete.PoolsGone,
      Obsolete.DesiredPoolKeys, Obsolete.ObsoletePools, ObsoleteListeners, ListenerIDsAt, Convergence.ChildrenDone, Recovery.Names,
      KnownIDs, OwnName, Convergence.NamesFit, KeepsToVIP, TakesVIP, CreatesOn, LoopRests, ParentsRest, OnlyTheStacks, PatchedOnly,
      KeepsVIP, AsksFor, ParentsRecorded, ParentsReturned, RecordRests, Observed.Mirror, ScalarFollows, AliasLost, Observed.State.Mirrored,
      AtRest, FrontOf, Unique, Observed.Ids, Answered, Answerable, MakesNoLB, MakesNoVIP, StandsAsAsked, StaysWith, VIPStands;
    ids, lb, subnet := [], NO_ID, "";
    ghost var start := observed.graph;
    NothingTouched(k.kids, start);
    InvIsWellFormed(c.naming, c.net);
    ghost var names := Recovery.Names(req.stack.virtualServers);
    LaterThanItself(c.net);
    NothingNewKeepsVIP(c.net, c.net, lb, subnet, names, observed.vipID);
    AsksNothing(c.log, names);
    NothingPatched(c.net, c.log);
    StaysAtFirst(c.net, req, observed.lbID, observed.vipID, c.log, observed.lbID, observed.vipID);
    AnswerableIsValid(c.net, observed.Mirrored(), req, observed.lbID, observed.vipID, observed.vsID);
    if |req.stack.virtualServers| == 0 || req.stack.certificates != [] {
      return Err(Invalid), ids, lb, subnet;
    }
    ghost var n0, given, k0, vsID0 := c.net, observed.Mirrored(), k.kids, observed.vsID;
    ghost var hyp := Ordered(n0, k0, given, req, vsID0);
    if hyp {
      OrderedFits(n0, k0, given, req, vsID0);
    }
    BeginsSays(c.naming, n0, c.actor, req, observed.graph, observed.lbID, observed.vipID, observed.vsID);
    BeginsNames(c.naming, n0, c.actor, req, observed.graph, observed.lbID, observed.vipID, observed.vsID);
    ghost var s := c.net.services[c.actor];
    MirrorShape(observed);
    var parents := Prepare(c, observed, req, s, k0);
    NothingNewKeepsVIP(n0, c.net, lb, subnet, names, old(observed.vipID));
    if parents.Err? {
      return Err(parents.error), ids, lb, subnet;
    }
    lb, subnet := parents.value.lb, parents.value.subnet;
    ghost var before, l1 := observed.graph, c.log;
    SameChildren(given, before, names);
    SameOwners(start, before);
    var failure, changed;
    failure, changed, ids := Finish(c, k, observed, req, observed.lbID, parents.value.subnet, s, hyp, n0, old(c.log), given, old(observed.vipID));
    StaysOn(n0, req, old(observed.lbID), old(observed.vipID), old(c.log), l1, c.log, failure.None?, observed.lbID, observed.vipID);
    if failure.Some? {
      return Err(failure.value), ids, lb, subnet;
    }
    ReturnedParents(given, before, observed.graph, req.stack, lb, observed.vipID, observed.vipAddress);
    return Ok(parents.value.changed || changed), ids, lb, subnet;
  }

  /** What the calls after the VIP mean for the VIPs, names and logs of the pass. */
  lemma CreationsSettle(actor: string, n0: Net, n: Net, l0: seq<Event>, l1: seq<Event>, calls: seq<Call>, m: Net, l: seq<Event>, lb: Id,
                        subnet: string, names: set<string>, vip0: Id, vip: Id)
    requires WellFormed(n0) && WellFormed(n) && WellFormed(m) && NamesLater(n0, n) && n.listeners.Keys <= n0.listeners.Keys
    requires Span(actor, n, l1, calls, m, l) && CreatesOn(calls, vip, Frontend(names, subnet)) && TakesVIP(n0, n, lb, subnet, names, vip0, vip)
    requires AsksFor(l0, l1, names) && KeepsVIP(n, actor, lb, vip, Frontend(names, subnet))
    ensures KeepsToVIP(n0, m, lb, subnet, names, vip0) && AsksFor(l0, l, names) && KeepsVIP(m, actor, lb, vip, Frontend(names, subnet))
    ensures NamesLater(n0, m)
  {
    hide Span, WellFormed, CreatesOn, TakesVIP, AsksFor, KeepsVIP, KeepsToVIP, NamesLater;
    PassKeepsToVIP(actor, n0, n, l1, calls, m, l, lb, subnet, names, vip0, vip, Frontend(names, subnet));
    CreationsAsk(actor, n, l1, calls, m, l, vip, Frontend(names, subnet));
    AsksOn(l0, l1, l, names);
    CreationsKeepVIP(actor, n, l1, calls, m, l, lb, vip, Frontend(names, subnet));
    SpanKeepsNames(actor, n, l1, calls, m, l);
    NamesLaterChains(n0, n, m);
  }

  /** What a pass needs to find out can be found out: it is not refused, and reads and lookups answer. */
  ghost predicate Answerable(n: Net, g: Graph, req: Request, lbID: Id, vipID: Id, vsID: Id) {
    && req.stack.virtualServers != [] && req.stack.certificates == []
    && PlacementKnown(n, req, lbID) && Answered(n, g, lbID, vipID, req, vsID)
  }

  lemma AnswerableIsValid(n: Net, g: Graph, req: Request, lbID: Id, vipID: Id, vsID: Id)
    ensures Answerable(n, g, req, lbID, vipID, vsID) ==> req.stack.virtualServers != [] && req.stack.certificates == []
  {
  }

  lemma StillAnswered(n0: Net, l0: seq<Event>, n: Net, l: seq<Event>, given: Graph, before: Graph, lb: Id, vip: Id, req: Request, vsID: Id)
    requires PatchedOnly(n0, l0, n, l) && before.virtualServers == given.virtualServers
    ensures Answered(n0, given, lb, vip, req, vsID) ==> Answered(n, before, lb, vip, req, vsID)
  {
    hide HashOf, SameFrontend, HasAggregatePool;
    if Answered(n0, given, lb, vip, req, vsID) {
      forall j | 0 <= j < |req.stack.virtualServers|
        ensures VirtualServers.Unobstructed(n, RequestFor(req, before, lb, vip, req.stack.virtualServers[j], vsID, false))
                && (req.aggregate ==> HasAggregatePool(req.stack, req.stack.virtualServers[j]))
      {
        var vs := req.stack.virtualServers[j];
        assert RequestFor(req, before, lb, vip, vs, vsID, false) == RequestFor(req, given, lb, vip, vs, vsID, false);
        assert VirtualServers.Unobstructed(n0, RequestFor(req, given, lb, vip, vs, vsID, false));
      }
    }
  }

  lemma RestingParents(n: Net, k: Kid.Kids, start: Graph, g: Graph, req: Request, lb: Id, vip: Id, address: string, vsID: Id)
    requires AtRest(n, k, start, g, req, lb, vip, address, vsID)
    ensures ParentsRest(n, req, lb, vip, address)
  {
  }

  lemma MirrorShape(o: Observed.State)
    ensures o.Mirrored() == o.graph.(
      lbServices := Observed.Mirror(o.graph.lbServices, Observed.LEGACY_LB, o.lbID, Resource(Observed.LEGACY_LB, o.lbID, "", "", "", NO_OWNER)),
      vips := Observed.Mirror(o.graph.vips, Observed.LEGACY_VIP, o.vipID, Resource(Observed.LEGACY_VIP, o.vipID, "", o.vipAddress, "", NO_OWNER)),
      virtualServers := Observed.Mirror(o.graph.virtualServers, Observed.LEGACY_VS, o.vsID, Resource(Observed.LEGACY_VS, o.vsID, o.vsName, "", "", NO_OWNER)))
  {
  }

  /** A state at rest is one still when load balancer and VIP have been ensured. */
  lemma StillAtRest(n0: Net, l0: seq<Event>, n: Net, l: seq<Event>, k: Kid.Kids, start: Graph, given: Graph, before: Graph, lb: Id, vip: Id,
                    address: string, req: Request, vsID: Id, vsName: string, names: set<string>)
    requires AtRest(n0, k, start, given, req, lb, vip, address, vsID) && PatchedOnly(n0, l0, n, l)
    requires given == start.(
      lbServices := Observed.Mirror(start.lbServices, Observed.LEGACY_LB, lb, Resource(Observed.LEGACY_LB, lb, "", "", "", NO_OWNER)),
      vips := Observed.Mirror(start.vips, Observed.LEGACY_VIP, vip, Resource(Observed.LEGACY_VIP, vip, "", address, "", NO_OWNER)),
      virtualServers := Observed.Mirror(start.virtualServers, Observed.LEGACY_VS, vsID, Resource(Observed.LEGACY_VS, vsID, vsName, "", "", NO_OWNER)))
    requires Prepared(given, before, names) && before.virtualServers == given.virtualServers
    requires ParentsRecorded(given, before, req.stack, lb, vip, address)
    ensures LoopRests(n, k, before, lb, vip, req, vsID) && OnlyTheStacks(before, req) && Dropped(before) == start
    ensures Answered(n0, given, lb, vip, req, vsID) ==> Answered(n, before, lb, vip, req, vsID)
  {
    hide Answered, LoopRests, OnlyTheStacks, Prepared, ParentsRecorded, PatchedOnly, Observed.Mirror, RecordRests, ParentsRest, Dropped;
    LoopStillRests(n0, l0, n, l, k, given, before, lb, vip, req, vsID, names);
    StillAnswered(n0, l0, n, l, given, before, lb, vip, req, vsID);
    SameChildren(given, before, names);
    SameStacks(given, before, req);
    RecordReturns(start, given, before, req.stack, lb, vip, address, vsID, names,
                  Resource(Observed.LEGACY_LB, lb, "", "", "", NO_OWNER), Resource(Observed.LEGACY_VIP, vip, "", address, "", NO_OWNER),
                  Resource(Observed.LEGACY_VS, vsID, vsName, "", "", NO_OWNER));
  }

  /** Such an alias goes as obsolete. */
  lemma LostAliasIsObsolete(given: Graph, before: Graph, g: Graph, req: Request)
    requires Prepared(given, before, Recovery.Names(req.stack.virtualServers))
    requires RecordsNames(before.virtualServers, g.virtualServers, Recovery.Names(req.stack.virtualServers))
    requires forall i | 0 <= i < |req.stack.virtualServers| :: req.stack.virtualServers[i].name != Observed.LEGACY_VS
    ensures AliasLost(given, AfterDeletions(g, req)) ==> ObsoleteListeners(Dropped(g), Recovery.Names(req.stack.virtualServers)) != {}
  {
    hide VSName, PoolKey, Observed.Drop, Obsolete.DesiredPoolKeys, Obsolete.ObsoletePools, Keyed, AfterDeletions, Dropped, ObsoleteListeners;
    if AliasLost(given, AfterDeletions(g, req)) {
      assert g.virtualServers[Observed.LEGACY_VS] == before.virtualServers[Observed.LEGACY_VS] == given.virtualServers[Observed.LEGACY_VS];
      LostIsObsolete(g, req, given.virtualServers[Observed.LEGACY_VS].externalID);
    }
  }

  /** An id that the deletions take off the record was recorded under an obsolete name. */
  lemma LostIsObsolete(g: Graph, req: Request, id: Id)
    requires id != NO_ID && id in Observed.Ids(g.virtualServers) && id !in Observed.Ids(AfterDeletions(g, req).virtualServers)
    ensures ObsoleteListeners(Dropped(g), Recovery.Names(req.stack.virtualServers)) != {}
  {
    hide VSName, PoolKey, Observed.Drop, Obsolete.DesiredPoolKeys, Obsolete.ObsoletePools, Recovery.Names, AfterDeletions;
    var names := Recovery.Names(req.stack.virtualServers);
    Observed.DropKeepsIds(g.virtualServers, Observed.LEGACY_VS);
    var key :| key in Dropped(g).virtualServers && Dropped(g).virtualServers[key].externalID == id;
    if key in names {
      NamedStays(g, req, key);
    }
    assert key in ObsoleteListeners(Dropped(g), names);
  }

  lemma NamedStays(g: Graph, req: Request, key: string)
    requires key in Dropped(g).virtualServers && key in Recovery.Names(req.stack.virtualServers)
    ensures key in AfterDeletions(g, req).virtualServers && AfterDeletions(g, req).virtualServers[key] == Dropped(g).virtualServers[key]
  {
    hide VSName, PoolKey, Observed.Drop, Obsolete.DesiredPoolKeys, Obsolete.ObsoletePools, Recovery.Names;
  }

  lemma ReturnedParents(given: Graph, before: Graph, g: Graph, stack: Stack, lb: Id, vip: Id, address: string)
    requires ParentsRecorded(given, before, stack, lb, vip, address)
    requires g.lbServices == Observed.Drop(before.lbServices, Observed.LEGACY_LB) && g.vips == Observed.Drop(before.vips, Observed.LEGACY_VIP)
    ensures ParentsReturned(given, g, stack, lb, vip, address)
  {
    hide Observed.Drop;
  }

  lemma CreationsMakeNone(actor: string, n0: Net, l0: seq<Event>, calls: seq<Call>, n: Net, l: seq<Event>, vip: Id, front: Frontend)
    requires Span(actor, n0, l0, calls, n, l) && CreatesOn(calls, vip, front)
    ensures MakesNoLB(l0, l) && MakesNoVIP(l0, l) && NamesLater(n0, n)
  {
    hide Span, MakesNoLB, MakesNoVIP, NamesLater;
    SpanMakesNone(actor, n0, l0, calls, n, l);
    SpanKeepsNames(actor, n0, l0, calls, n, l);
  }

  lemma CreationsAsk(actor: string, n0: Net, l0: seq<Event>, calls: seq<Call>, n: Net, l: seq<Event>, vip: Id, front: Frontend)
    requires Span(actor, n0, l0, calls, n, l) && CreatesOn(calls, vip, front)
    ensures AsksFor(l0, l, front.names)
  {
    hide Span, AsksFor;
    SpanAsks(actor, n0, l0, calls, n, l, front.names);
  }

  lemma SameStacks(g: Graph, h: Graph, req: Request)
    requires OnlyTheStacks(g, req) && h.virtualServers == g.virtualServers && h.pools == g.pools
    ensures OnlyTheStacks(h, req)
  {
    hide Obsolete.DesiredPoolKeys;
  }

  lemma CreatesOnRest(a: seq<Call>, b: seq<Call>, vip: Id, front: Frontend)
    requires CreatesOn(a, vip, front) && forall i | 0 <= i < |b| :: b[i].DeleteListener?
    ensures CreatesOn(a + b, vip, front)
  {
  }

  lemma LaterThanItself(n: Net)
    ensures NamesLater(n, n)
  {
  }

  lemma BeginsNames(nm: Naming, n: Net, actor: string, req: Request, graph: Graph, lbID: Id, vipID: Id, vsID: Id)
    requires Begins(nm, n, actor, req, graph, lbID, vipID, vsID)
    ensures req.stack.lbService.name == nm.lb(actor) != Observed.LEGACY_LB
    ensures forall i | 0 <= i < |req.stack.virtualServers| :: req.stack.virtualServers[i].name != Observed.LEGACY_VS
  {
    hide OwnedBy, RecordedListeners, KeysFollowOwner, OwnName, StrictVIP, StrictLB, Reaches;
  }

  lemma SameOwners(g: Graph, h: Graph)
    requires h.pools == g.pools && h.routingRules == g.routingRules
    ensures forall k0, k :: SparesOthers(k0, h, k) <==> SparesOthers(k0, g, k)
  {
  }

  lemma ScalarStaysRecorded(g: Graph, req: Request, oldVsID: Id, vsID: Id)
    requires ScalarFollows(req.stack, oldVsID, g, vsID)
    requires forall i | 0 <= i < |req.stack.virtualServers| :: req.stack.virtualServers[i].name != Observed.LEGACY_VS
    ensures vsID == NO_ID || vsID in Observed.Ids(AfterDeletions(g, req).virtualServers) || (|req.stack.virtualServers| != 1 && vsID == oldVsID)
    ensures ScalarFollows(req.stack, oldVsID, AfterDeletions(g, req), vsID)
  {
    hide VSName, PoolKey, Observed.Drop, Obsolete.DesiredPoolKeys, Obsolete.ObsoletePools;
    Observed.DropKeepsIds(g.virtualServers, Observed.LEGACY_VS);
    if |req.stack.virtualServers| == 1 && vsID != NO_ID {
      var name := req.stack.virtualServers[0].name;
      assert name in AfterDeletions(g, req).virtualServers && AfterDeletions(g, req).virtualServers[name].externalID == vsID;
    }
  }

  lemma OrderedNow(n0: Net, n: Net, k: Kid.Kids, given: Graph, before: Graph, req: Request, vsID: Id)
    requires Ordered(n0, k, given, req, vsID) && Prepared(given, before, Recovery.Names(req.stack.virtualServers))
    requires Orderly(n0, given, req.stack, vsID) && Convergence.NamesFit(req.stack.virtualServers) ==> Orderly(n, before, req.stack, vsID)
    requires Near(n, before, req.stack, vsID) <= Near(n0, given, req.stack, vsID)
    ensures Ordered(n, k, before, req, vsID)
  {
    hide Orderly, Convergence.KidsDistinct, Convergence.NamesFit, LC.Workable, Near;
    if !req.aggregate {
      FewerDistinct(k, Near(n0, given, req.stack, vsID), Near(n, before, req.stack, vsID));
    }
  }

  lemma OrderedStays(n0: Net, n: Net, k: Kid.Kids, given: Graph, g1: Graph, before: Graph, req: Request, vsID: Id, lb: Id, vip: Id, address: string)
    requires g1 == WithParent(given, req.stack, lb) && before.lbServices == g1.lbServices
    requires before.vips == g1.vips[req.stack.vip.name := VIPEntry(req.stack, vip, address)]
    requires Prepared(given, before, Recovery.Names(req.stack.virtualServers))
    requires Orderly(n0, given, req.stack, vsID) && Convergence.NamesFit(req.stack.virtualServers) ==> Orderly(n, before, req.stack, vsID)
    requires Near(n, before, req.stack, vsID) <= Near(n0, given, req.stack, vsID)
    ensures Ordered(n0, k, given, req, vsID) ==> Ordered(n, k, before, req, vsID)
    ensures ParentsRecorded(given, before, req.stack, lb, vip, address)
  {
    hide Orderly, Ordered, Convergence.NamesFit, Near, Prepared, Recovery.Names, Fit;
    if Ordered(n0, k, given, req, vsID) {
      OrderedNow(n0, n, k, given, before, req, vsID);
    }
  }

  lemma OrderedFits(n: Net, k: Kid.Kids, g: Graph, req: Request, vsID: Id)
    requires Ordered(n, k, g, req, vsID)
    ensures Fit(req) && Orderly(n, g, req.stack, vsID)
  {
  }

  lemma LoopSays(n: Net, k0: Kid.Kids, g0: Graph, k: Kid.Kids, g: Graph, lb: Id, vip: Id, req: Request, vsID: Id, ids: seq<Id>, hyp: bool)
    requires hyp ==> LoopDone(n, k0, g0, k, g, lb, vip, req, vsID, ids) && |ids| == |req.stack.virtualServers|
    requires req.aggregate ==> g == g0.(virtualServers := g.virtualServers)
    requires !req.aggregate ==> hyp
    ensures LeavesOthers(g0, g, req.stack)
    ensures !req.aggregate ==> Convergence.ChildrenDone(k0, g0, k, g, ids, req.stack, req.resolve)
  {
    hide Convergence.ChildrenDone, LeavesOthers, Orderly, Standing;
    LoopLeavesOthers(k0, g0, k, g, ids, req);
  }

  lemma LoopIsPublishable(nm: Naming, actor: string, n0: Net, l0: seq<Event>, calls: seq<Call>, n: Net, l: seq<Event>, s: Service,
                          req: Request, g: Graph, h: Graph, lb: Id, vip: Id, vsID0: Id, vsID: Id)
    requires WellFormed(n0) && Span(actor, n0, l0, calls, n, l) && Publishable(nm, n0, actor, s, req, g, lb, vip, vsID0)
    requires Anchored(nm, n, actor, lb) && actor in n.services && Vouched(nm, n, actor, lb, KnownIDs(h, vsID)) && h.lbServices == g.lbServices
    ensures Publishable(nm, n, actor, s, req, h, lb, vip, vsID)
  {
    hide WellFormed, Span, Vouched, OwnParents, Anchored, KnownIDs;
    PublishableStays(nm, actor, n0, l0, calls, n, l, s, req, g, lb, vip, vsID0);
  }
}
